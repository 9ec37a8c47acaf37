/** The rows the core reads and writes (apps/chat/models.py,
    apps/authentication/models.py), held as in-memory tables in place of the
    Django ORM. `ChatStore` is the database: every ORM write the core makes is
    one of its methods, and each is specified by a function on `Tables`. */
module Database {
  import opened Common
  import opened Ordering

  datatype User = User(
    id: UserId,
    username: string,
    passwordHash: string,
    isActive: bool,
    lastSeen: Option<int>,
    createdAt: int)

  /** `scope['user']`: `AnonymousUser`, or the authenticated user row. */
  datatype ScopeUser = Anonymous | Authenticated(user: User)

  /** A conversation; `participants` is listed in the order the participant
      query returns the users, without repetitions. */
  datatype Conversation = Conversation(
    id: ConversationId,
    participants: seq<UserId>,
    createdAt: int,
    updatedAt: int)

  datatype PrivateMessage = PrivateMessage(
    id: MessageId,
    conversationId: ConversationId,
    senderId: UserId,
    content: string,
    timestamp: int,
    isRead: bool)

  datatype GlobalMessage = GlobalMessage(
    id: int,
    senderId: UserId,
    content: string,
    timestamp: int)

  datatype Tables = Tables(
    users: seq<User>,
    conversations: seq<Conversation>,
    messages: seq<PrivateMessage>,
    globalMessages: seq<GlobalMessage>)

  /** `Model.objects.get(<field>=k)` on a table: the first row whose field
      `key` is `k`, or `None` on `DoesNotExist`. */
  function FindBy<T>(rows: seq<T>, key: T -> string, k: string): (r: Option<T>)
    ensures r.Some? ==> r.value in rows && key(r.value) == k
    ensures r.None? <==> forall i :: 0 <= i < |rows| ==> key(rows[i]) != k
  {
    if |rows| == 0 then None
    else if key(rows[0]) == k then Some(rows[0])
    else FindBy(rows[1..], key, k)
  }

  /** Appending a row whose key no earlier row has makes it the row found. */
  lemma {:induction false} FindByAppend<T>(rows: seq<T>, key: T -> string, x: T, k: string)
    requires key(x) == k && forall i :: 0 <= i < |rows| ==> key(rows[i]) != k
    ensures FindBy(rows + [x], key, k) == Some(x)
  {
    if |rows| == 0 {
      assert rows + [x] == [x];
    } else {
      assert (rows + [x])[1..] == rows[1..] + [x];
      FindByAppend(rows[1..], key, x, k);
    }
  }

  function UserIdOf(u: User): UserId { u.id }
  function UsernameOf(u: User): string { u.username }
  function ConversationIdOf(c: Conversation): ConversationId { c.id }

  /** `User.objects.get(id=id)`. */
  function FindUser(users: seq<User>, id: UserId): Option<User> {
    FindBy(users, UserIdOf, id)
  }

  /** `User.objects.get(username=name)`. */
  function FindUserByName(users: seq<User>, name: string): Option<User> {
    FindBy(users, UsernameOf, name)
  }

  /** `User.objects.get(id=id, is_active=True)`, or `None`. */
  function FindActiveUser(users: seq<User>, id: UserId): (r: Option<User>)
    ensures r.Some? ==> r.value in users && r.value.id == id && r.value.isActive
    ensures r.None? <==> forall i :: 0 <= i < |users| && users[i].id == id ==> !users[i].isActive
  {
    if |users| == 0 then None
    else if users[0].id == id && users[0].isActive then Some(users[0])
    else FindActiveUser(users[1..], id)
  }

  /** `Conversation.objects.get(id=id)`. */
  function FindConversation(cs: seq<Conversation>, id: ConversationId): Option<Conversation> {
    FindBy(cs, ConversationIdOf, id)
  }

  function CreatedAt(u: User): int { u.createdAt }

  /** A user row that `participants.exclude(id=me)` returns. */
  predicate IsOtherParticipant(u: User, participants: seq<UserId>, me: UserId) {
    u.id in participants && u.id != me
  }

  /** `conversation.participants.exclude(id=me).first()`. The User model's
      default ordering is `-created_at`, so this is the most recently created
      participant other than `me` (of rows created at the same time, the
      last in table order); `None` when there is none. */
  function OtherParticipant(users: seq<User>, participants: seq<UserId>, me: UserId): (r: Option<User>)
    ensures r.None? <==> forall i :: 0 <= i < |users| ==> !IsOtherParticipant(users[i], participants, me)
    ensures r.Some? ==> r.value in users && IsOtherParticipant(r.value, participants, me)
    ensures r.Some? ==> forall i :: 0 <= i < |users| && IsOtherParticipant(users[i], participants, me) ==>
      users[i].createdAt <= r.value.createdAt
  {
    if |users| == 0 then None
    else
      var rest := OtherParticipant(users[1..], participants, me);
      if !IsOtherParticipant(users[0], participants, me) then rest
      else if rest.Some? && rest.value.createdAt >= users[0].createdAt then rest
      else Some(users[0])
  }

  /** `conversation.participants.add(a, b)` on an empty participant set: the
      m2m relation keeps each user once. */
  function PairParticipants(a: UserId, b: UserId): (r: seq<UserId>)
    ensures forall u :: u in r <==> u == a || u == b
    ensures |r| == if a == b then 1 else 2
  {
    if a == b then [a] else [a, b]
  }

  function UpdatedAt(c: Conversation): int { c.updatedAt }
  function MessageTime(m: PrivateMessage): int { m.timestamp }
  function GlobalTime(m: GlobalMessage): int { m.timestamp }

  /** `conversation.save(update_fields=['updated_at'])`: `auto_now` stamps the
      conversation with the current time. */
  function TouchConversation(cs: seq<Conversation>, id: ConversationId, now: int): (r: seq<Conversation>)
    ensures |r| == |cs|
    ensures forall i :: 0 <= i < |cs| ==> r[i].(updatedAt := cs[i].updatedAt) == cs[i]
    ensures forall i :: 0 <= i < |cs| ==> r[i].updatedAt == (if cs[i].id == id then now else cs[i].updatedAt)
  {
    seq(|cs|, i requires 0 <= i < |cs| => if cs[i].id == id then cs[i].(updatedAt := now) else cs[i])
  }

  /** `GlobalMessage.objects.create(sender=..., content=...)`. */
  function InsertGlobal(t: Tables, m: GlobalMessage): Tables {
    t.(globalMessages := t.globalMessages + [m])
  }

  /** `PrivateMessage.objects.create(...)` followed by the conversation's
      `updated_at` stamp. */
  function InsertPrivate(t: Tables, m: PrivateMessage, now: int): Tables {
    t.(messages := t.messages + [m],
       conversations := TouchConversation(t.conversations, m.conversationId, now))
  }

  /** `User.objects.filter(id=id).update(last_seen=now)`. */
  function StampLastSeen(t: Tables, id: UserId, now: int): (r: Tables)
    ensures r.conversations == t.conversations && r.messages == t.messages
    ensures r.globalMessages == t.globalMessages
    ensures |r.users| == |t.users|
    ensures forall i :: 0 <= i < |t.users| ==> r.users[i].(lastSeen := t.users[i].lastSeen) == t.users[i]
    ensures forall i :: 0 <= i < |t.users| ==>
      r.users[i].lastSeen == (if t.users[i].id == id then Some(now) else t.users[i].lastSeen)
  {
    t.(users := seq(|t.users|, i requires 0 <= i < |t.users| =>
      if t.users[i].id == id then t.users[i].(lastSeen := Some(now)) else t.users[i]))
  }

  /** The database. */
  class ChatStore {
    var users: seq<User>
    var conversations: seq<Conversation>
    var messages: seq<PrivateMessage>
    var globalMessages: seq<GlobalMessage>

    function Snapshot(): Tables
      reads this
    {
      Tables(users, conversations, messages, globalMessages)
    }

    constructor (initial: Tables)
      ensures Snapshot() == initial
    {
      users := initial.users;
      conversations := initial.conversations;
      messages := initial.messages;
      globalMessages := initial.globalMessages;
    }

    /** Store a new global message row; the database assigns `id`, `now` is the timestamp. */
    method CreateGlobalMessage(id: int, sender: UserId, content: string, now: int)
      returns (m: GlobalMessage)
      modifies this
      ensures m == GlobalMessage(id, sender, content, now)
      ensures Snapshot() == InsertGlobal(old(Snapshot()), m)
    {
      m := GlobalMessage(id, sender, content, now);
      globalMessages := globalMessages + [m];
    }

    /** Store a new private message row, unread, and stamp its conversation. */
    method CreatePrivateMessage(id: MessageId, conversation: ConversationId, sender: UserId,
                                content: string, now: int)
      returns (m: PrivateMessage)
      modifies this
      ensures m == PrivateMessage(id, conversation, sender, content, now, false)
      ensures Snapshot() == InsertPrivate(old(Snapshot()), m, now)
    {
      m := PrivateMessage(id, conversation, sender, content, now, false);
      messages := messages + [m];
      conversations := TouchConversation(conversations, conversation, now);
    }

    /** Store a new conversation row with the given participants. */
    method CreateConversation(id: ConversationId, participants: seq<UserId>, now: int)
      returns (c: Conversation)
      modifies this
      ensures c == Conversation(id, participants, now, now)
      ensures Snapshot() == old(Snapshot()).(conversations := old(conversations) + [c])
    {
      c := Conversation(id, participants, now, now);
      conversations := conversations + [c];
    }

    method UpdateLastSeen(id: UserId, now: int)
      modifies this
      ensures Snapshot() == StampLastSeen(old(Snapshot()), id, now)
    {
      var stamped: seq<User> := [];
      var i := 0;
      while i < |users|
        invariant 0 <= i <= |users|
        invariant |stamped| == i
        invariant forall j :: 0 <= j < i ==>
          stamped[j] == if users[j].id == id then users[j].(lastSeen := Some(now)) else users[j]
      {
        var u := users[i];
        stamped := stamped + [if u.id == id then u.(lastSeen := Some(now)) else u];
        i := i + 1;
      }
      users := stamped;
    }

    method AddUser(u: User)
      modifies this
      ensures Snapshot() == old(Snapshot()).(users := old(users) + [u])
    {
      users := users + [u];
    }

    method ReplaceMessages(ms: seq<PrivateMessage>)
      modifies this
      ensures Snapshot() == old(Snapshot()).(messages := ms)
    {
      messages := ms;
    }
  }
}
