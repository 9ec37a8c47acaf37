/** What the consumers guarantee across whole entry points: who hears what,
    what the registry and presence cache look like afterwards, and that an
    exception escaping `receive` leaves nothing half done. */
module ConsumerProperties {
  import opened Common
  import opened Presence
  import opened Database
  import opened Consumers

  /** Channel `x` belongs to a consumer authenticated as user `id`. */
  predicate HeldBy(w: World, x: ChannelName, id: UserId) {
    x in w.sessions && w.sessions[x].scopeUser.Authenticated? && w.sessions[x].scopeUser.user.id == id
  }

  /** Only global-room consumers are in `global_chat`. */
  lemma GlobalMembersAreGlobalSessions(w: World, x: ChannelName)
    requires Wf(w) && x in Members(w, GLOBAL_GROUP)
    ensures x in w.sessions && w.sessions[x].kind == GlobalChat && w.sessions[x].scopeUser.Authenticated?
  {
    var u := w.sessions[x].scopeUser.user;
    UserGroupInjective(u.id, u.id);
  }

  /** Only private consumers of user `id` are in `user_<id>`. */
  lemma InboxMembersAreTheUsersSessions(w: World, x: ChannelName, id: UserId)
    requires Wf(w) && x in Members(w, UserGroup(id))
    ensures HeldBy(w, x, id) && w.sessions[x].kind == PrivateChat
  {
    var u := w.sessions[x].scopeUser.user;
    UserGroupInjective(id, u.id);
  }

  /** The presence frame a member `x` of the global room gets when user `u`
      changes status: one, unless `x` is a consumer of `u` itself. */
  function PresenceNotice(w: World, x: ChannelName, u: User, status: PresenceStatus): seq<OutFrame> {
    if x in Members(w, GLOBAL_GROUP) && !HeldBy(w, x, u.id) then [PresenceFrame(u.id, u.username, status)] else []
  }

  // ---------------------------------------------------------------------
  // connect
  // ---------------------------------------------------------------------

  /** An anonymous connection is closed with 4001 and touches nothing else. */
  lemma AnonymousConnectIsRefused(w: World, kind: ConsumerKind, c: ChannelName, now: int)
    requires c !in w.sessions
    ensures var w' := ConnectSpec(w, kind, c, Anonymous, now);
      && w'.sessions == w.sessions[c := Session(kind, Anonymous, Closed(CLOSE_UNAUTHENTICATED))]
      && w'.groups == w.groups && w'.presence == w.presence
      && w'.outbox == w.outbox && w'.tables == w.tables
      && w'.trace == w.trace + [ClosedSocket(c, CLOSE_UNAUTHENTICATED)]
  {
  }

  /** A new authenticated consumer joins its group. */
  lemma JoinKeepsAgreement(groups: map<GroupName, set<ChannelName>>, sessions: map<ChannelName, Session>,
                           c: ChannelName, s: Session)
    requires Agrees(groups, sessions) && c !in sessions && s.scopeUser.Authenticated?
    ensures var g := GroupOf(s.kind, s.scopeUser.user);
      Agrees(groups[g := MembersOf(groups, g) + {c}], sessions[c := s])
  {
    assert forall h :: c !in MembersOf(groups, h);
    var g := GroupOf(s.kind, s.scopeUser.user);
    var groups' := groups[g := MembersOf(groups, g) + {c}];
    var sessions' := sessions[c := s];
    forall h, y | y in MembersOf(groups', h)
      ensures y in sessions' && sessions'[y].scopeUser.Authenticated?
      ensures h == GroupOf(sessions'[y].kind, sessions'[y].scopeUser.user)
    {
      if y != c {
        assert y in MembersOf(groups, h);
      }
    }
  }

  /** A new anonymous consumer joins no group. */
  lemma AnonymousJoinKeepsAgreement(groups: map<GroupName, set<ChannelName>>, sessions: map<ChannelName, Session>,
                                    c: ChannelName, s: Session)
    requires Agrees(groups, sessions) && c !in sessions && s.scopeUser.Anonymous?
    ensures Agrees(groups, sessions[c := s])
  {
    assert forall h :: c !in MembersOf(groups, h);
  }

  /** A consumer goes away: authenticated ones leave their group first. */
  lemma LeaveKeepsAgreement(groups: map<GroupName, set<ChannelName>>, sessions: map<ChannelName, Session>,
                            c: ChannelName)
    requires Agrees(groups, sessions) && c in sessions
    ensures sessions[c].scopeUser.Authenticated? ==>
      var g := GroupOf(sessions[c].kind, sessions[c].scopeUser.user);
      Agrees(groups[g := MembersOf(groups, g) - {c}], sessions - {c})
    ensures sessions[c].scopeUser.Anonymous? ==> Agrees(groups, sessions - {c})
  {
    if sessions[c].scopeUser.Authenticated? {
      var g := GroupOf(sessions[c].kind, sessions[c].scopeUser.user);
      LeaveMembersAgree(groups, sessions, c, g);
      LeaveSessionsAgree(groups, sessions, c, g);
    } else {
      assert forall h :: c !in MembersOf(groups, h);
    }
  }

  /** After an authenticated consumer leaves, every member left in a group
      is a remaining consumer of that group. */
  lemma LeaveMembersAgree(groups: map<GroupName, set<ChannelName>>, sessions: map<ChannelName, Session>,
                          c: ChannelName, g: GroupName)
    requires Agrees(groups, sessions) && c in sessions && sessions[c].scopeUser.Authenticated?
    requires g == GroupOf(sessions[c].kind, sessions[c].scopeUser.user)
    ensures var groups', sessions' := groups[g := MembersOf(groups, g) - {c}], sessions - {c};
      forall h, y :: y in MembersOf(groups', h) ==>
        y in sessions' && sessions'[y].scopeUser.Authenticated? &&
        h == GroupOf(sessions'[y].kind, sessions'[y].scopeUser.user)
  {
    var groups', sessions' := groups[g := MembersOf(groups, g) - {c}], sessions - {c};
    assert forall h :: c in MembersOf(groups, h) ==> h == g;
    forall h, y | y in MembersOf(groups', h)
      ensures y in sessions' && sessions'[y].scopeUser.Authenticated?
      ensures h == GroupOf(sessions'[y].kind, sessions'[y].scopeUser.user)
    {
      assert y in MembersOf(groups, h);
    }
  }

  /** After an authenticated consumer leaves, every remaining authenticated
      consumer is still in its group. */
  lemma LeaveSessionsAgree(groups: map<GroupName, set<ChannelName>>, sessions: map<ChannelName, Session>,
                           c: ChannelName, g: GroupName)
    requires Agrees(groups, sessions) && c in sessions && sessions[c].scopeUser.Authenticated?
    requires g == GroupOf(sessions[c].kind, sessions[c].scopeUser.user)
    ensures var groups', sessions' := groups[g := MembersOf(groups, g) - {c}], sessions - {c};
      forall y :: y in sessions' && sessions'[y].scopeUser.Authenticated? ==>
        y in MembersOf(groups', GroupOf(sessions'[y].kind, sessions'[y].scopeUser.user))
  {
    var groups', sessions' := groups[g := MembersOf(groups, g) - {c}], sessions - {c};
    forall y | y in sessions' && sessions'[y].scopeUser.Authenticated?
      ensures y in MembersOf(groups', GroupOf(sessions'[y].kind, sessions'[y].scopeUser.user))
    {
      assert y in MembersOf(groups, GroupOf(sessions[y].kind, sessions[y].scopeUser.user));
    }
  }

  /** What `connect` does to the registry and the consumer instances. */
  lemma ConnectRegistry(w: World, kind: ConsumerKind, c: ChannelName, u: User, now: int)
    requires c !in w.sessions
    ensures var w' := ConnectSpec(w, kind, c, Authenticated(u), now);
      && w'.groups == w.groups[GroupOf(kind, u) := MembersOf(w.groups, GroupOf(kind, u)) + {c}]
      && w'.sessions == w.sessions[c := Session(kind, Authenticated(u), Open)]
  {
  }

  lemma ConnectPreservesWf(w: World, kind: ConsumerKind, c: ChannelName, su: ScopeUser, now: int)
    requires Wf(w) && c !in w.sessions
    ensures Wf(ConnectSpec(w, kind, c, su, now))
  {
    var w' := ConnectSpec(w, kind, c, su, now);
    if su.Authenticated? {
      JoinKeepsAgreement(w.groups, w.sessions, c, Session(kind, su, Open));
      ConnectRegistry(w, kind, c, su.user, now);
    } else {
      var s := Session(kind, su, Closed(CLOSE_UNAUTHENTICATED));
      AnonymousJoinKeepsAgreement(w.groups, w.sessions, c, s);
      assert w'.groups == w.groups && w'.sessions == w.sessions[c := s];
    }
  }

  /** An authenticated connection joins its group and is accepted. */
  lemma AuthenticatedConnectJoins(w: World, kind: ConsumerKind, c: ChannelName, u: User, now: int)
    requires Wf(w) && c !in w.sessions
    ensures var w' := ConnectSpec(w, kind, c, Authenticated(u), now);
      && Wf(w')
      && Members(w', GroupOf(kind, u)) == Members(w, GroupOf(kind, u)) + {c}
      && w'.sessions == w.sessions[c := Session(kind, Authenticated(u), Open)]
  {
    ConnectPreservesWf(w, kind, c, Authenticated(u), now);
  }

  /** An authenticated connection makes the user present for exactly the
      presence expiry, and the socket is accepted only after the group join
      and the presence write. */
  lemma AuthenticatedConnectMarksOnline(w: World, kind: ConsumerKind, c: ChannelName, u: User, now: int, t: int)
    requires c !in w.sessions
    ensures var w' := ConnectSpec(w, kind, c, Authenticated(u), now);
      && (OnlineIn(w'.presence, u.id, t) <==> t < now + PRESENCE_EXPIRY)
      && w'.tables == w.tables
      && w'.trace == w.trace
           + [JoinedGroup(GroupOf(kind, u), c), WrotePresence(PresenceKey(u.id)), AcceptedSocket(c)]
           + (if kind == GlobalChat then [Published(GLOBAL_GROUP, PresenceEvent(u.id, Some(u.username), Online))] else [])
  {
    MarkOnlineWindow(w.presence, u.id, now, t, u.id);
  }

  /** A global connection announces the user once to every consumer in the
      global room that belongs to another user (its own consumers, the new
      one included, are skipped); a private connection sends nothing. */
  lemma ConnectAnnounces(w: World, kind: ConsumerKind, c: ChannelName, u: User, now: int, x: ChannelName)
    requires Wf(w) && c !in w.sessions
    ensures kind == PrivateChat ==> ConnectSpec(w, kind, c, Authenticated(u), now).outbox == w.outbox
    ensures kind == GlobalChat ==>
      Outbox(ConnectSpec(w, kind, c, Authenticated(u), now), x) == Outbox(w, x) + PresenceNotice(w, x, u, Online)
  {
    var w0 := w.(sessions := w.sessions[c := Session(kind, Authenticated(u), Connecting)]);
    var w3 := AcceptSocket(WritePresence(GroupAdd(w0, GroupOf(kind, u), c), u.id, now), c);
    if kind == GlobalChat {
      assert Outbox(w3, x) == Outbox(w, x);
      assert Members(w3, GLOBAL_GROUP) == Members(w, GLOBAL_GROUP) + {c};
      if x in Members(w, GLOBAL_GROUP) {
        GlobalMembersAreGlobalSessions(w, x);
        assert w3.sessions[x] == w.sessions[x];
      } else if x == c {
        assert React(w3.sessions[c], PresenceEvent(u.id, Some(u.username), Online)) == Suppress;
      }
    }
  }

  lemma DisconnectPreservesWf(w: World, c: ChannelName, now: int)
    requires Wf(w) && c in w.sessions
    ensures Wf(DisconnectSpec(w, c, now))
  {
    var s := w.sessions[c];
    var w' := DisconnectSpec(w, c, now);
    LeaveKeepsAgreement(w.groups, w.sessions, c);
    assert w'.sessions == w.sessions - {c};
    if s.scopeUser.Authenticated? {
      var g := GroupOf(s.kind, s.scopeUser.user);
      assert w'.groups == w.groups[g := MembersOf(w.groups, g) - {c}];
    } else {
      assert w'.groups == w.groups;
    }
  }

  /** A disconnect leaves the group, erases the user's presence and stamps
      `last_seen`. */
  lemma AuthenticatedDisconnect(w: World, c: ChannelName, now: int, t: int)
    requires Wf(w) && c in w.sessions && w.sessions[c].scopeUser.Authenticated?
    ensures var s := w.sessions[c];
      var u := s.scopeUser.user;
      var w' := DisconnectSpec(w, c, now);
      && Wf(w')
      && w'.sessions == w.sessions - {c}
      && Members(w', GroupOf(s.kind, u)) == Members(w, GroupOf(s.kind, u)) - {c}
      && !OnlineIn(w'.presence, u.id, t)
      && (forall i :: 0 <= i < |w.tables.users| && w.tables.users[i].id == u.id ==>
            w'.tables.users[i].lastSeen == Some(now))
  {
    DisconnectPreservesWf(w, c, now);
    MarkOfflineClears(w.presence, w.sessions[c].scopeUser.user.id, t, w.sessions[c].scopeUser.user.id);
  }

  /** Leaving the global room tells every other user's consumer in it once;
      leaving a private connection sends nothing. */
  lemma DisconnectAnnounces(w: World, c: ChannelName, now: int, x: ChannelName)
    requires Wf(w) && c in w.sessions && w.sessions[c].scopeUser.Authenticated?
    ensures var s := w.sessions[c];
      s.kind == PrivateChat ==> DisconnectSpec(w, c, now).outbox == w.outbox
    ensures var s := w.sessions[c];
      s.kind == GlobalChat ==>
        Outbox(DisconnectSpec(w, c, now), x) == Outbox(w, x) + PresenceNotice(w, x, s.scopeUser.user, Offline)
  {
    var s := w.sessions[c];
    if s.kind == GlobalChat {
      var u := s.scopeUser.user;
      var w3 := StampSeen(ErasePresence(GroupDiscard(w, GLOBAL_GROUP, c), u.id), u.id, now);
      assert Outbox(w3, x) == Outbox(w, x) && w3.sessions == w.sessions;
      if x in Members(w, GLOBAL_GROUP) {
        GlobalMembersAreGlobalSessions(w, x);
      }
    }
  }

  /** Presence is per user, not per connection: closing one of two consumers
      of the same user marks the user offline although the other is still
      connected and still in its group. */
  lemma DisconnectWithAnotherSessionOpen(w: World, c: ChannelName, d: ChannelName, now: int, t: int)
    requires Wf(w) && c != d
    requires c in w.sessions && w.sessions[c].scopeUser.Authenticated?
    requires HeldBy(w, d, w.sessions[c].scopeUser.user.id)
    ensures var u := w.sessions[c].scopeUser.user;
      var w' := DisconnectSpec(w, c, now);
      && HeldBy(w', d, u.id)
      && d in Members(w', GroupOf(w.sessions[d].kind, w.sessions[d].scopeUser.user))
      && !OnlineIn(w'.presence, u.id, t)
  {
    DisconnectPreservesWf(w, c, now);
    MarkOfflineClears(w.presence, w.sessions[c].scopeUser.user.id, t, w.sessions[c].scopeUser.user.id);
  }

  /** A consumer that was refused at connect has nothing to undo. */
  lemma AnonymousDisconnectOnlyForgets(w: World, c: ChannelName, now: int)
    requires c in w.sessions && w.sessions[c].scopeUser.Anonymous?
    ensures DisconnectSpec(w, c, now) == w.(sessions := w.sessions - {c})
  {
  }

  // ---------------------------------------------------------------------
  // receive
  // ---------------------------------------------------------------------

  /** A frame from an anonymous consumer, or one that is not JSON, is ignored. */
  lemma IgnoredFrames(w: World, c: ChannelName, frame: Frame, now: int, gid: int, pid: MessageId,
                      sanitize: string -> string)
    requires c in w.sessions
    requires w.sessions[c].scopeUser.Anonymous? || frame.Unparseable?
    ensures w.sessions[c].kind == GlobalChat ==>
      ReceiveGlobalSpec(w, c, frame, now, gid, sanitize) == (w, Completed)
    ensures w.sessions[c].kind == PrivateChat ==>
      ReceivePrivateSpec(w, c, frame, now, pid, sanitize) == (w, Completed)
  {
  }

  /** A decoded frame that is not a JSON object makes `receive` raise. */
  lemma NonObjectFramesRaise(w: World, c: ChannelName, doc: Json, now: int, gid: int, pid: MessageId,
                             sanitize: string -> string)
    requires c in w.sessions && w.sessions[c].scopeUser.Authenticated? && !doc.JObject?
    ensures w.sessions[c].kind == GlobalChat ==>
      ReceiveGlobalSpec(w, c, Decoded(doc), now, gid, sanitize) == (w, Raised)
    ensures w.sessions[c].kind == PrivateChat ==>
      ReceivePrivateSpec(w, c, Decoded(doc), now, pid, sanitize) == (w, Raised)
  {
  }

  /** Blank content is dropped before anything is stored or sent. */
  lemma BlankContentIsDropped(w: World, c: ChannelName, fields: map<string, Json>, raw: string,
                              now: int, gid: int, pid: MessageId, sanitize: string -> string)
    requires c in w.sessions
    requires ContentText(fields) == Some(raw) && Strip(raw) == ""
    ensures w.sessions[c].kind == GlobalChat ==>
      ReceiveGlobalSpec(w, c, Decoded(JObject(fields)), now, gid, sanitize) == (w, Completed)
    ensures w.sessions[c].kind == PrivateChat && GetField(fields, "type") == JString("send_private_message") ==>
      ReceivePrivateSpec(w, c, Decoded(JObject(fields)), now, pid, sanitize) == (w, Completed)
  {
  }

  /** A global send stores the stripped, sanitised, truncated text, and only
      then publishes it. */
  lemma GlobalSendStoresThenBroadcasts(w: World, c: ChannelName, fields: map<string, Json>, raw: string,
                                       now: int, newId: int, sanitize: string -> string)
    requires c in w.sessions && w.sessions[c].kind == GlobalChat
    requires w.sessions[c].scopeUser.Authenticated?
    requires GetField(fields, "type") == JString("send_global_message")
    requires ContentText(fields) == Some(raw) && Strip(raw) != ""
    requires FindUser(w.tables.users, w.sessions[c].scopeUser.user.id).Some?
    ensures var u := w.sessions[c].scopeUser.user;
      var text := PublishedContent(raw, sanitize);
      var rec := GlobalRecord(newId, u.id, u.username, text, now);
      var (w', outcome) := ReceiveGlobalSpec(w, c, Decoded(JObject(fields)), now, newId, sanitize);
      && outcome == Completed
      && w' == BroadcastGlobal(w, u, text, now, newId)
      && |text| <= MESSAGE_MAX_LENGTH
      && w'.tables.globalMessages == w.tables.globalMessages + [GlobalMessage(newId, u.id, text, now)]
      && w'.trace == w.trace + [SavedGlobal(GlobalMessage(newId, u.id, text, now)),
                                Published(GLOBAL_GROUP, GlobalMessageEvent(rec))]
  {
    TruncateIsBoundedPrefix(sanitize(Strip(raw)), MESSAGE_MAX_LENGTH);
  }

  /** A published global message reaches every consumer in the global room
      once, the sender's own included, and no one else. */
  lemma BroadcastReachesRoom(w: World, c: ChannelName, u: User, text: string, now: int, newId: int,
                             x: ChannelName)
    requires Wf(w) && HeldBy(w, c, u.id) && w.sessions[c].kind == GlobalChat
    ensures c in Members(w, GLOBAL_GROUP)
    ensures Outbox(BroadcastGlobal(w, u, text, now, newId), x) == Outbox(w, x) +
      (if x in Members(w, GLOBAL_GROUP) then [GlobalMessageFrame(GlobalRecord(newId, u.id, u.username, text, now))] else [])
  {
    if x in Members(w, GLOBAL_GROUP) {
      GlobalMembersAreGlobalSessions(w, x);
    }
  }

  /** A private send from a user whose row exists, to an existing
      conversation, stores the message unread and stamps the conversation,
      and only after storing it publishes and confirms it. */
  lemma PrivateSendStores(w: World, c: ChannelName, fields: map<string, Json>, raw: string,
                          conv: Conversation, now: int, newId: MessageId, sanitize: string -> string)
    requires c in w.sessions && w.sessions[c].kind == PrivateChat
    requires w.sessions[c].scopeUser.Authenticated?
    requires FindUser(w.tables.users, w.sessions[c].scopeUser.user.id).Some?
    requires GetField(fields, "type") == JString("send_private_message")
    requires ContentText(fields) == Some(raw) && Strip(raw) != ""
    requires GetField(fields, "conversation_id") == JString(conv.id) && conv.id != ""
    requires FindConversation(w.tables.conversations, conv.id) == Some(conv)
    ensures var u := FindUser(w.tables.users, w.sessions[c].scopeUser.user.id).value;
      var text := PublishedContent(raw, sanitize);
      var m := PrivateMessage(newId, conv.id, u.id, text, now, false);
      var rec := PrivateRecord(newId, conv.id, u.id, u.username, text, now);
      var r := RecipientOf(w.tables.users, conv, u.id);
      var (w', outcome) := ReceivePrivateSpec(w, c, Decoded(JObject(fields)), now, newId, sanitize);
      && outcome == Completed
      && w' == DeliverPrivate(w, c, u, conv, text, now, newId)
      && u.id == w.sessions[c].scopeUser.user.id
      && |text| <= MESSAGE_MAX_LENGTH
      && w'.tables.messages == w.tables.messages + [m]
      && w'.tables.conversations == TouchConversation(w.tables.conversations, conv.id, now)
      && w'.trace == w.trace + [SavedPrivate(m)] +
           (if r.Some? then [Published(UserGroup(r.value), PrivateMessageEvent(rec)),
                             SentDirect(c, PrivateMessageSentFrame(rec))]
            else [])
  {
    TruncateIsBoundedPrefix(sanitize(Strip(raw)), MESSAGE_MAX_LENGTH);
    var u := w.sessions[c].scopeUser.user;
    var sender := FindUser(w.tables.users, u.id).value;
    var text := PublishedContent(raw, sanitize);
    assert ReceivePrivateSpec(w, c, Decoded(JObject(fields)), now, newId, sanitize)
        == SendPrivateSpec(w, c, u, fields, now, newId, sanitize)
        == (DeliverPrivate(w, c, sender, conv, text, now, newId), Completed);
    DeliverPrivateTrace(w, c, sender, conv, text, now, newId);
    DeliverPrivateTables(w, c, sender, conv, text, now, newId);
  }

  /** What a private delivery stores. */
  lemma DeliverPrivateTables(w: World, c: ChannelName, u: User, conv: Conversation, text: string,
                             now: int, newId: MessageId)
    ensures var w' := DeliverPrivate(w, c, u, conv, text, now, newId);
      && w'.tables.messages == w.tables.messages + [PrivateMessage(newId, conv.id, u.id, text, now, false)]
      && w'.tables.conversations == TouchConversation(w.tables.conversations, conv.id, now)
  {
  }

  /** The order of the effects of a private delivery. */
  lemma DeliverPrivateTrace(w: World, c: ChannelName, u: User, conv: Conversation, text: string,
                            now: int, newId: MessageId)
    ensures var m := PrivateMessage(newId, conv.id, u.id, text, now, false);
      var rec := PrivateRecord(newId, conv.id, u.id, u.username, text, now);
      var r := RecipientOf(w.tables.users, conv, u.id);
      DeliverPrivate(w, c, u, conv, text, now, newId).trace == w.trace + [SavedPrivate(m)] +
        (if r.Some? then [Published(UserGroup(r.value), PrivateMessageEvent(rec)),
                          SentDirect(c, PrivateMessageSentFrame(rec))]
         else [])
  {
  }

  /** A stored private message reaches every consumer of the other
      participant once and nobody else, and the sending consumer alone gets
      the confirmation; with no other participant nothing is sent. */
  lemma PrivateDeliveryRoutesToInbox(w: World, c: ChannelName, u: User, conv: Conversation, text: string,
                                     now: int, newId: MessageId, x: ChannelName)
    requires Wf(w) && HeldBy(w, c, u.id)
    ensures var rec := PrivateRecord(newId, conv.id, u.id, u.username, text, now);
      var r := RecipientOf(w.tables.users, conv, u.id);
      var w' := DeliverPrivate(w, c, u, conv, text, now, newId);
      && (r.None? ==> w'.outbox == w.outbox)
      && (r.Some? ==>
            && r.value != u.id
            && Outbox(w', x) == Outbox(w, x)
                 + (if x in Members(w, UserGroup(r.value)) then [PrivateMessageFrame(rec)] else [])
                 + (if x == c then [PrivateMessageSentFrame(rec)] else []))
  {
    var r := RecipientOf(w.tables.users, conv, u.id);
    if r.Some? {
      var rec := PrivateRecord(newId, conv.id, u.id, u.username, text, now);
      var w1 := SavePrivate(w, PrivateMessage(newId, conv.id, u.id, text, now, false), now);
      var w2 := GroupSend(w1, UserGroup(r.value), PrivateMessageEvent(rec));
      assert DeliverPrivate(w, c, u, conv, text, now, newId) == SendDirect(w2, c, PrivateMessageSentFrame(rec));
      assert w1.groups == w.groups && w1.sessions == w.sessions && w1.outbox == w.outbox;
      GroupSendDelivers(w1, UserGroup(r.value), PrivateMessageEvent(rec), x);
      if x in Members(w, UserGroup(r.value)) {
        InboxMembersAreTheUsersSessions(w, x, r.value);
        assert Outbox(w2, x) == Outbox(w, x) + [PrivateMessageFrame(rec)];
      } else {
        assert Outbox(w2, x) == Outbox(w, x);
      }
      if x == c {
        UserGroupInjective(r.value, u.id);
        assert c !in Members(w, UserGroup(r.value));
      }
    }
  }

  /** The recipient is the most recently created participant other than the
      sender, and the sender need not be a participant at all: a send into
      someone else's conversation reaches its newest participant. */
  lemma OutsiderReachesNewestParticipant(users: seq<User>, conv: Conversation, me: UserId, i: int)
    requires me !in conv.participants
    requires 0 <= i < |users| && users[i].id in conv.participants && users[i].id != ""
    requires forall j :: 0 <= j < |users| && j != i && users[j].id in conv.participants ==>
      users[j].createdAt < users[i].createdAt
    ensures RecipientOf(users, conv, me) == Some(users[i].id)
  {
    assert IsOtherParticipant(users[i], conv.participants, me);
    var v := OtherParticipant(users, conv.participants, me).value;
    var k :| 0 <= k < |users| && users[k] == v;
    assert k == i;
  }

  /** A private send naming no stored conversation raises before anything is
      stored or sent. */
  lemma PrivateSendToMissingConversationRaises(w: World, c: ChannelName, fields: map<string, Json>,
                                               raw: string, now: int, newId: MessageId,
                                               sanitize: string -> string)
    requires c in w.sessions && w.sessions[c].kind == PrivateChat
    requires w.sessions[c].scopeUser.Authenticated?
    requires GetField(fields, "type") == JString("send_private_message")
    requires ContentText(fields) == Some(raw) && Strip(raw) != ""
    requires Truthy(GetField(fields, "conversation_id"))
    requires LookupConversation(w.tables, GetField(fields, "conversation_id")).None?
    ensures ReceivePrivateSpec(w, c, Decoded(JObject(fields)), now, newId, sanitize) == (w, Raised)
  {
  }

  /** A typing indicator is stored nowhere. When the named conversation
      exists and has another participant, every consumer of that participant
      gets exactly one typing frame and no other outbox changes, the
      sender's own included; otherwise nothing changes at all. */
  lemma TypingReachesOnlyRecipient(w: World, c: ChannelName, fields: map<string, Json>, now: int,
                                   newId: MessageId, sanitize: string -> string, x: ChannelName)
    requires Wf(w) && c in w.sessions && w.sessions[c].kind == PrivateChat
    requires w.sessions[c].scopeUser.Authenticated?
    requires GetField(fields, "type") in {JString("typing_start"), JString("typing_stop")}
    ensures var u := w.sessions[c].scopeUser.user;
      var cid := GetField(fields, "conversation_id");
      var typing := if GetField(fields, "type") == JString("typing_start") then Typing else Stopped;
      var conv := if Truthy(cid) then LookupConversation(w.tables, cid) else None;
      var r := if conv.Some? then RecipientOf(w.tables.users, conv.value, u.id) else None;
      var (w', outcome) := ReceivePrivateSpec(w, c, Decoded(JObject(fields)), now, newId, sanitize);
      && outcome == Completed
      && (r.None? ==> w' == w)
      && (r.Some? ==>
            && r.value != u.id
            && w'.tables == w.tables && w'.sessions == w.sessions
            && w'.groups == w.groups && w'.presence == w.presence
            && Outbox(w', x) == Outbox(w, x) +
                 (if x in Members(w, UserGroup(r.value))
                  then [TypingFrame(u.id, u.username, conv.value.id, typing)] else []))
      && Outbox(w', c) == Outbox(w, c)
  {
    var u := w.sessions[c].scopeUser.user;
    var cid := GetField(fields, "conversation_id");
    var typing := if GetField(fields, "type") == JString("typing_start") then Typing else Stopped;
    assert ReceivePrivateSpec(w, c, Decoded(JObject(fields)), now, newId, sanitize) == (TypingSpec(w, u, cid, typing), Completed);
    TypingOutboxes(w, c, u, cid, typing, x);
  }

  /** The outboxes after `TypingSpec` for the user `u` of channel `c`. */
  lemma TypingOutboxes(w: World, c: ChannelName, u: User, cid: Json, typing: TypingStatus, x: ChannelName)
    requires Wf(w) && HeldBy(w, c, u.id)
    ensures var conv := if Truthy(cid) then LookupConversation(w.tables, cid) else None;
      var r := if conv.Some? then RecipientOf(w.tables.users, conv.value, u.id) else None;
      var w' := TypingSpec(w, u, cid, typing);
      && (r.None? ==> w' == w)
      && (r.Some? ==>
            && r.value != u.id
            && w'.tables == w.tables && w'.sessions == w.sessions
            && w'.groups == w.groups && w'.presence == w.presence
            && Outbox(w', x) == Outbox(w, x) +
                 (if x in Members(w, UserGroup(r.value))
                  then [TypingFrame(u.id, u.username, conv.value.id, typing)] else []))
      && Outbox(w', c) == Outbox(w, c)
  {
    var conv := if Truthy(cid) then LookupConversation(w.tables, cid) else None;
    var r := if conv.Some? then RecipientOf(w.tables.users, conv.value, u.id) else None;
    if r.Some? {
      var g, e := UserGroup(r.value), TypingEvent(u.id, u.username, cid.s, typing);
      assert cid.s == conv.value.id;
      assert TypingSpec(w, u, cid, typing) == GroupSend(w, g, e);
      UserGroupInjective(r.value, u.id);
      assert c !in Members(w, g);
      GroupSendDelivers(w, g, e, c);
      GroupSendDelivers(w, g, e, x);
      if x in Members(w, g) {
        InboxMembersAreTheUsersSessions(w, x, r.value);
      }
    }
  }

  /** A frame whose `type` the consumer does not know is ignored. */
  lemma UnknownFrameTypesAreIgnored(w: World, c: ChannelName, fields: map<string, Json>, now: int,
                                    gid: int, pid: MessageId, sanitize: string -> string)
    requires c in w.sessions && w.sessions[c].scopeUser.Authenticated?
    ensures w.sessions[c].kind == GlobalChat && GetField(fields, "type") != JString("send_global_message") ==>
      ReceiveGlobalSpec(w, c, Decoded(JObject(fields)), now, gid, sanitize) == (w, Completed)
    ensures w.sessions[c].kind == PrivateChat &&
            GetField(fields, "type") !in {JString("send_private_message"), JString("typing_start"), JString("typing_stop")} ==>
      ReceivePrivateSpec(w, c, Decoded(JObject(fields)), now, pid, sanitize) == (w, Completed)
  {
  }

  /** A private send whose `conversation_id` is missing or falsy is ignored,
      whatever its content. */
  lemma MissingConversationIdIsIgnored(w: World, c: ChannelName, fields: map<string, Json>, now: int,
                                       newId: MessageId, sanitize: string -> string)
    requires c in w.sessions && w.sessions[c].kind == PrivateChat
    requires GetField(fields, "type") == JString("send_private_message")
    requires ContentText(fields).Some? && !Truthy(GetField(fields, "conversation_id"))
    ensures ReceivePrivateSpec(w, c, Decoded(JObject(fields)), now, newId, sanitize) == (w, Completed)
  {
  }

  /** A send from a user whose row has been deleted since connecting raises
      before anything is stored or sent. */
  lemma DeletedSenderRaises(w: World, c: ChannelName, fields: map<string, Json>, raw: string, now: int,
                            gid: int, pid: MessageId, sanitize: string -> string)
    requires c in w.sessions && w.sessions[c].scopeUser.Authenticated?
    requires FindUser(w.tables.users, w.sessions[c].scopeUser.user.id).None?
    requires ContentText(fields) == Some(raw) && Strip(raw) != ""
    ensures w.sessions[c].kind == GlobalChat && GetField(fields, "type") == JString("send_global_message") ==>
      ReceiveGlobalSpec(w, c, Decoded(JObject(fields)), now, gid, sanitize) == (w, Raised)
    ensures w.sessions[c].kind == PrivateChat && GetField(fields, "type") == JString("send_private_message") &&
            Truthy(GetField(fields, "conversation_id")) ==>
      ReceivePrivateSpec(w, c, Decoded(JObject(fields)), now, pid, sanitize) == (w, Raised)
  {
  }

  // ---------------------------------------------------------------------
  // The async presence announcers
  // ---------------------------------------------------------------------

  /** As written, the announcers' event has no `username`, so the
      `user_presence` handler of every other user's global consumer raises
      and none of them is told. */
  lemma AnnouncedPresenceReachesNobody(w: World, id: UserId, status: PresenceStatus, now: int, x: ChannelName)
    requires Wf(w) && x in Members(w, GLOBAL_GROUP) && !HeldBy(w, x, id)
    ensures React(w.sessions[x], PresenceEvent(id, None, status)) == Fail
    ensures Outbox(AnnouncePresenceSpec(w, id, status, now), x) == Outbox(w, x)
  {
    GlobalMembersAreGlobalSessions(w, x);
  }

  /** One global consumer of user "b"; announcing user "a" online fails in its handler. */
  lemma AnnouncedPresenceCounterexample()
    ensures var b := User("b", "b", "", true, None, 0);
      var w := World(map[GLOBAL_GROUP := {"c1"}], map[],
                     map["c1" := Session(GlobalChat, Authenticated(b), Open)],
                     map[], Tables([], [], [], []), []);
      && Wf(w)
      && React(w.sessions["c1"], PresenceEvent("a", None, Online)) == Fail
      && Outbox(AnnouncePresenceSpec(w, "a", Online, 0), "c1") == []
  {
    var b := User("b", "b", "", true, None, 0);
    var w := World(map[GLOBAL_GROUP := {"c1"}], map[],
                   map["c1" := Session(GlobalChat, Authenticated(b), Open)],
                   map[], Tables([], [], [], []), []);
    assert Wf(w);
    AnnouncedPresenceReachesNobody(w, "a", Online, 0, "c1");
  }

  /** With the username in the event, every other user's global consumer is
      told once, like on connect and disconnect, and the user's own are not. */
  lemma AnnouncedPresenceCorrectedReachesOthers(w: World, u: User, status: PresenceStatus, now: int,
                                                x: ChannelName, t: int)
    requires Wf(w)
    ensures var w' := AnnouncePresenceCorrectedSpec(w, u, status, now);
      && Outbox(w', x) == Outbox(w, x) + PresenceNotice(w, x, u, status)
      && (OnlineIn(w'.presence, u.id, t) <==> status == Online && t < now + PRESENCE_EXPIRY)
  {
    MarkOnlineWindow(w.presence, u.id, now, t, u.id);
    MarkOfflineClears(w.presence, u.id, t, u.id);
    if x in Members(w, GLOBAL_GROUP) {
      GlobalMembersAreGlobalSessions(w, x);
    }
  }
}
