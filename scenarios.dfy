/**
 * Clients of the consumers, in the manner of tests: what a caller can
 * conclude from the contracts alone, one transition at a time, for user `a`
 * chatting with user `b`.
 */
module Scenarios {
  import opened Wrappers
  import opened Text
  import opened Rooms
  import opened QueryString
  import opened Presence
  import opened Backend
  import opened Consumers

  lemma OnlyPartner(keys: set<ChatKey>, a: UserId, b: UserId)
    requires keys == {(a, b)} && a < b
    ensures PartnersAmong(keys, a) == {b}
  {
    assert (set k | k in keys && k.1 == a :: k.0) == {};
    assert (set k | k in keys && k.0 == a :: k.1) == {b};
  }

  lemma FanOutToOne(partners: set<UserId>, p: UserId, before: seq<Effect>, after: seq<Effect>, ev: Event,
                    groups: map<Group, set<Channel>>)
    requires ExtendedByFanOut(before, after, ev, partners, groups) && partners == {p}
    ensures after == before + [Sent(InboxName(p), ev, MembersOf(groups, InboxName(p)))]
  {
    assert InboxName(p) in InboxesOf({p});
    assert after == after[..|before|] + after[|before|..];
  }

  /**
   * A fresh backend where `a` and `b` share one chat: `b` opens the
   * conversation list, joining `chatlist_b` and nothing else, and then `a`
   * opens the chat.
   */
  method ListThenChat(ta: string, tb: string, a: UserId, b: UserId)
    requires ta != tb && a < b
    requires '&' !in ta && '=' !in ta && ta != []
    requires '&' !in tb && '=' !in tb && tb != []
  {
    var be := new Server(map[ta := a, tb := b],
                          map[a := UserRow("ann", 0, false, None), b := UserRow("bo", 0, false, None)],
                          map[(a, b) := []]);
    ListThenChatOn(be, ta, tb, a, b);
  }

  /** The same run on a backend already in that initial state. */
  method ListThenChatOn(be: Server, ta: string, tb: string, a: UserId, b: UserId)
    requires ta != tb && a < b
    requires '&' !in ta && '=' !in ta && ta != []
    requires '&' !in tb && '=' !in tb && tb != []
    requires be.Valid() && be.tokens == map[ta := a, tb := b]
    requires be.users == map[a := UserRow("ann", 0, false, None), b := UserRow("bo", 0, false, None)]
    requires be.chats == map[(a, b) := []] && be.groups == map[] && be.log == []
    modifies be
  {
    var list := new ChatListConsumer(be, "list", TokenPrefix + tb);
    assert ListToken(list.queryString) == Some(tb) by {
      PlainTokenQuery(tb);
    }
    list.Connect();
    assert list.state == Subscribed(b, InboxName(b));
    assert MembersOf(map[], InboxName(b)) + {"list"} == {"list"};
    assert be.users[a] == UserRow("ann", 0, false, None) && be.log == [];

    FirstDeviceAnnounces(be, ta, a, b);
  }

  /**
   * With `b`'s conversation list open, `a`'s first chat connection brings
   * `a` online and sends exactly one `online` status, to that list.
   */
  method FirstDeviceAnnounces(be: Server, ta: string, a: UserId, b: UserId)
    requires be.Valid() && a < b
    requires '&' !in ta && '=' !in ta && ta != [] && ta in be.tokens && be.tokens[ta] == a
    requires be.users[a] == UserRow("ann", 0, false, None)
    requires be.chats.Keys == {(a, b)}
    requires MembersOf(be.groups, InboxName(b)) == {"list"}
    requires be.log == []
    modifies be
  {
    var x := new PrivateChatConsumer(be, "x", TokenPrefix + ta, NatToString(b));
    assert PrivateChatToken(x.queryString) == Some(ta) by {
      PlainTokenQuery(ta);
    }
    ParseNatToString(b);
    assert PartnersAmong(be.chats.Keys, a) == {b} by {
      OnlyPartner(be.chats.Keys, a, b);
    }
    x.Connect();
    assert x.state == InRoom(a, b, RoomName(a, b), UserRow("ann", 1, true, None));
    assert be.users[a] == UserRow("ann", 1, true, None);
    FanOutToOne(PartnersAmong(be.chats.Keys, a), b, [], be.log, StatusEvent(a, true), be.groups);
    assert MembersOf(be.groups, InboxName(b)) == {"list"} by {
      InboxIsNotRoom(b, a, b);
    }
    assert be.log == [Sent(InboxName(b), StatusEvent(a, true), {"list"})];
  }

  /**
   * While `a` is online on one device, opening a second one and then closing
   * either publishes nothing: only the counter moves.
   */
  method SecondDeviceIsSilent(x: PrivateChatConsumer, ta: string, a: UserId)
    requires x.Valid() && x.state.InRoom? && x.state.user == a && x.state.userObject == UserRow("ann", 1, true, None)
    requires '&' !in ta && '=' !in ta && ta != [] && ta in x.backend.tokens && x.backend.tokens[ta] == a
    requires x.backend.users[a] == UserRow("ann", 1, true, None)
    modifies x`state, x.backend
  {
    var y := new PrivateChatConsumer(x.backend, "y", TokenPrefix + ta, x.otherUserIdText);
    assert PrivateChatToken(y.queryString) == Some(ta) by {
      PlainTokenQuery(ta);
    }
    ghost var log := x.backend.log;
    y.Connect();
    assert x.backend.users[a] == UserRow("ann", 2, true, None);
    assert y.state.userObject == UserRow("ann", 2, true, None);
    assert x.backend.log == log;
    var r := x.Disconnect(10);
    assert r == Finished;
    assert x.backend.users[a] == UserRow("ann", 1, true, None);
    assert x.backend.log == log;
  }

  /**
   * Closing `a`'s last chat connection at time 11 takes `a` offline, stamps
   * `last_online` and sends one `offline` status to `b`'s open list. The
   * connection's cached object need only say `a` is online: the second
   * device of `SecondDeviceIsSilent`, cached at count 2, qualifies.
   */
  method LastDeviceAnnounces(x: PrivateChatConsumer, a: UserId, b: UserId)
    requires x.Valid() && x.state.InRoom? && x.state.user == a && a < b
    requires x.state.userObject.isOnline && x.state.userObject.username == "ann"
    requires x.backend.users[a] == UserRow("ann", 1, true, None)
    requires x.backend.chats.Keys == {(a, b)}
    requires MembersOf(x.backend.groups, InboxName(b)) == {"list"}
    modifies x`state, x.backend
  {
    var be := x.backend;
    assert PartnersAmong(be.chats.Keys, a) == {b} by {
      OnlyPartner(be.chats.Keys, a, b);
    }
    ghost var log := be.log;
    var r := x.Disconnect(11);
    assert be.users[a] == UserRow("ann", 0, false, Some(11));
    FanOutToOne(PartnersAmong(be.chats.Keys, a), b, log, be.log, StatusEvent(a, false), be.groups);
    assert MembersOf(be.groups, InboxName(b)) == {"list"} by {
      InboxIsNotRoom(b, x.state.user, x.state.otherUserId);
    }
    assert be.log == log + [Sent(InboxName(b), StatusEvent(a, false), {"list"})];
  }

  /**
   * A token that names no user closes the handshake with `user = None`;
   * the later `disconnect` gets past the `hasattr` guard and raises before
   * touching the room, the counter or the log.
   */
  method UnknownTokenRaisesOnClose(be: Server, ta: string, other: string)
    requires be.Valid() && '&' !in ta && '=' !in ta && ta != [] && ta !in be.tokens
    requires IsDigits(other) && other != []
    modifies be
  {
    var x := new PrivateChatConsumer(be, "x", TokenPrefix + ta, other);
    assert PrivateChatToken(x.queryString) == Some(ta) by {
      PlainTokenQuery(ta);
    }
    x.Connect();
    assert x.state == UserMissing && x.closed && !x.accepted;
    ghost var users, groups, log := be.users, be.groups, be.log;
    var r := x.Disconnect(5);
    assert r == RaisedAttributeError;
    assert be.users == users && be.groups == groups && be.log == log;
  }

  /**
   * A message whose body is not all white space is stripped, appended to the
   * pair's chat and then published to the room, in that order.
   */
  method MessageIsStoredThenSent(x: PrivateChatConsumer, raw: string, now: Time)
    requires x.Valid() && x.state.InRoom? && Strip(raw) != []
    modifies x.backend
  {
    var be := x.backend;
    var key := ChatKeyOf(x.state.user, x.state.otherUserId);
    var m := Message(x.state.user, Strip(raw), now);
    ghost var log := be.log;
    ghost var before := MessagesOf(be.chats, key);
    x.Receive(Frame(None, Some(raw), None), now);
    assert be.chats[key] == before + [m];
    assert be.log == log + [Stored(key, m), Sent(x.state.roomName,
      ChatMessage(m.text, NatToString(x.state.user), x.state.userObject.username, now), MembersOf(be.groups, x.state.roomName))];
  }
}
