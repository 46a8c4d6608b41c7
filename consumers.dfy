/**
 * The per-connection gateways: `PrivateChatConsumer` (one connection to the
 * room shared with one other user) and `ChatListConsumer` (a user's
 * conversation list, subscribed to the user's inbox group).
 *
 * The attributes the source sets on the consumer one by one, and later probes
 * with `hasattr`, are a tagged state here.
 */
module Consumers {
  import opened Wrappers
  import opened Text
  import opened Rooms
  import opened QueryString
  import opened Presence
  import opened Backend

  /** An inbound JSON frame, reduced to the keys `receive` reads. */
  datatype Frame = Frame(kind: Option<string>, message: Option<string>, isTyping: Option<bool>)

  /** The attributes of a `PrivateChatConsumer`. */
  datatype ChatState =
    | Unauthenticated
      // no attribute set: before `connect`, or the query string had no usable token
    | UserMissing
      // `self.user = None`: the token matched no row, and the connection was closed
    | InRoom(user: UserId, otherUserId: UserId, roomName: Group, userObject: UserRow)
      // `self.user`, `self.other_user_id` and `self.room_name` all set; `userObject`
      // is the consumer's own `self.user`, as last loaded or saved

  /** How `disconnect` ends: normally, or with the `AttributeError` raised on a `None` user. */
  datatype DisconnectResult = Finished | RaisedAttributeError

  /** An outbound frame passed to `self.send`. */
  datatype OutFrame =
    | Forward(event: Event)
    | TypingFrame(userId: string, isTyping: bool, timestamp: Time)

  /**
   * The handlers `PrivateChatConsumer` has for events delivered to its channel:
   * `chat_message` forwards the event, `typing_indicator` rewrites it with the
   * delivery time; any other type has no handler.
   */
  function PrivateChatHandler(ev: Event, now: Time): (r: Option<OutFrame>)
    ensures r.Some? <==> ev.ChatMessage? || ev.TypingIndicator?
    ensures ev.ChatMessage? ==> r == Some(Forward(ev))
    ensures ev.TypingIndicator? ==> r == Some(TypingFrame(ev.userId, ev.isTyping, now))
  {
    match ev
    case ChatMessage(_, _, _, _) => Some(Forward(ev))
    case TypingIndicator(user, typing) => Some(TypingFrame(user, typing, now))
    case _ => None
  }

  /** The handlers of `ChatListConsumer`: `status` and `friend_typing` forward the event unchanged. */
  function ChatListHandler(ev: Event): (r: Option<OutFrame>)
    ensures r.Some? <==> ev.Status? || ev.FriendTyping?
    ensures r.Some? ==> r.value == Forward(ev)
  {
    match ev
    case Status(_, _) => Some(Forward(ev))
    case FriendTyping(_, _) => Some(Forward(ev))
    case _ => None
  }

  /**
   * A status event is handled by the conversation list and not by a chat
   * room, and it is only ever sent to inbox groups, which are never rooms.
   */
  lemma StatusReachesListsOnly(u: UserId, online: bool, p: UserId, a: UserId, b: UserId, now: Time)
    ensures ChatListHandler(StatusEvent(u, online)) == Some(Forward(StatusEvent(u, online)))
    ensures PrivateChatHandler(StatusEvent(u, online), now).None?
    ensures InboxName(p) != RoomName(a, b)
  {
    InboxIsNotRoom(p, a, b);
  }

  class PrivateChatConsumer {
    const backend: Server
    const channelName: Channel
    /** `self.scope["query_string"]`, decoded. */
    const queryString: string
    /** `self.scope["url_route"]["kwargs"]["other_user_id"]`, matched by `\d+`. */
    const otherUserIdText: string
    var state: ChatState
    var accepted: bool
    var closed: bool

    ghost predicate Valid()
      reads this`state, backend`tokens, backend`users
    {
      && backend.Valid()
      && IsDigits(otherUserIdText) && otherUserIdText != []
      && (state.InRoom? ==>
            && state.user in backend.users
            && state.otherUserId == ParseDigits(otherUserIdText)
            && state.roomName == RoomName(state.user, state.otherUserId))
    }

    constructor (backend: Server, channelName: Channel, queryString: string, otherUserIdText: string)
      requires backend.Valid() && IsDigits(otherUserIdText) && otherUserIdText != []
      ensures Valid()
      ensures this.backend == backend && this.channelName == channelName
      ensures this.queryString == queryString && this.otherUserIdText == otherUserIdText
      ensures state == Unauthenticated && !accepted && !closed
    {
      this.backend := backend;
      this.channelName := channelName;
      this.queryString := queryString;
      this.otherUserIdText := otherUserIdText;
      state := Unauthenticated;
      accepted := false;
      closed := false;
    }

    /**
     * `connect`: without a usable token, or with a token of no user, the
     * connection is closed before any group join or counter change. Otherwise
     * it joins `chat_{min}_{max}`, is accepted, bumps the user's counter and,
     * if `is_online` flipped, fans the new status out to the chat partners.
     */
    method Connect()
      requires Valid() && state == Unauthenticated && !accepted && !closed
      modifies this`state, this`accepted, this`closed, backend`groups, backend`users, backend`log
      ensures Valid()
      ensures Rejects(PrivateChatToken(queryString)) ==>
        state == Unauthenticated && closed && !accepted && unchanged(backend)
      ensures var token := PrivateChatToken(queryString);
        !Rejects(token) && old(backend.UserFromToken(token.value)).None? ==>
          state == UserMissing && closed && !accepted && unchanged(backend)
      ensures var token := PrivateChatToken(queryString);
        !Rejects(token) && old(backend.UserFromToken(token.value)).Some? ==>
          var u := old(backend.UserFromToken(token.value)).value;
          var other := ParseDigits(otherUserIdText);
          var room := RoomName(u, other);
          && backend.groups == old(backend.groups)[room := MembersOf(old(backend.groups), room) + {channelName}]
          && backend.users == old(backend.users)[u := AfterConnect(old(backend.users[u]))]
          && state == InRoom(u, other, room, backend.users[u]) && accepted && !closed
          && (backend.users[u].isOnline == old(backend.users[u].isOnline) ==> backend.log == old(backend.log))
          && (backend.users[u].isOnline != old(backend.users[u].isOnline) ==>
                ExtendedByFanOut(old(backend.log), backend.log, StatusEvent(u, backend.users[u].isOnline),
                                 PartnersAmong(backend.chats.Keys, u), backend.groups))
      ensures NoFriendTyping(old(backend.log)) ==> NoFriendTyping(backend.log)
    {
      var token := PrivateChatToken(queryString);
      if Rejects(token) {
        closed := true;
        return;
      }
      var user := backend.UserFromToken(token.value);
      if user.None? {
        state := UserMissing;
        closed := true;
        return;
      }
      EnterRoom(user.value);
    }

    /**
     * The accepted branch of `connect` for user `u`: join the room, accept,
     * run `user_connect` and announce a flip.
     */
    method EnterRoom(u: UserId)
      requires Valid() && state == Unauthenticated && !accepted && !closed && u in backend.users
      modifies this`state, this`accepted, this`closed, backend`groups, backend`users, backend`log
      ensures Valid()
      ensures var other := ParseDigits(otherUserIdText);
        var room := RoomName(u, other);
        && backend.groups == old(backend.groups)[room := MembersOf(old(backend.groups), room) + {channelName}]
        && backend.users == old(backend.users)[u := AfterConnect(old(backend.users[u]))]
        && state == InRoom(u, other, room, backend.users[u]) && accepted && !closed
        && (backend.users[u].isOnline == old(backend.users[u].isOnline) ==> backend.log == old(backend.log))
        && (backend.users[u].isOnline != old(backend.users[u].isOnline) ==>
              ExtendedByFanOut(old(backend.log), backend.log, StatusEvent(u, backend.users[u].isOnline),
                               PartnersAmong(backend.chats.Keys, u), backend.groups))
      ensures NoFriendTyping(old(backend.log)) ==> NoFriendTyping(backend.log)
    {
      var other := ParseDigits(otherUserIdText);
      var room := RoomName(u, other);
      state := InRoom(u, other, room, backend.users[u]);
      backend.GroupAdd(room, channelName);
      accepted := true;
      var changed := backend.UserConnect(u);
      state := state.(userObject := backend.users[u]);
      if changed {
        BroadcastStatus();
      }
    }

    /**
     * `broadcast_status`: one `status` event, carrying the `is_online` flag of
     * the consumer's user object, to the inbox group of each chat partner and
     * to no other group.
     */
    method BroadcastStatus()
      requires Valid() && state.InRoom?
      modifies backend`log
      ensures ExtendedByFanOut(old(backend.log), backend.log, StatusEvent(state.user, state.userObject.isOnline),
                               PartnersAmong(backend.chats.Keys, state.user), backend.groups)
      ensures NoFriendTyping(old(backend.log)) ==> NoFriendTyping(backend.log)
    {
      var u := state.user;
      var partners := backend.GetChatPartners(u);
      var ev := StatusEvent(u, state.userObject.isOnline);
      var i := 0;
      while i < |partners|
        invariant 0 <= i <= |partners|
        invariant backend.log == old(backend.log) + StatusSends(partners[..i], ev, backend.groups)
      {
        backend.GroupSend(InboxName(partners[i]), ev);
        assert partners[..i + 1] == partners[..i] + [partners[i]];
        StatusSendsSnoc(partners[..i], partners[i], ev, backend.groups);
        i := i + 1;
      }
      assert partners[..|partners|] == partners;
      ghost var sends := StatusSends(partners, ev, backend.groups);
      assert backend.log == old(backend.log) + sends;
      assert backend.log[..|old(backend.log)|] == old(backend.log);
      assert backend.log[|old(backend.log)|..] == sends;
      StatusSendsFanOut(partners, ev, PartnersAmong(backend.chats.Keys, u), backend.groups);
      FanOutKeepsNoFriendTyping(old(backend.log), backend.log, ev, PartnersAmong(backend.chats.Keys, u), backend.groups);
    }

    /**
     * `receive`: a `typing` frame goes to `handle_typing_event`. Any other
     * frame whose stripped `message` is empty is dropped; otherwise the chat
     * row is fetched or created, the stripped text is persisted, and only then
     * is one `chat_message` event published to the room.
     */
    method Receive(frame: Frame, now: Time)
      requires Valid() && state.InRoom?
      modifies backend`chats, backend`log
      ensures Valid()
      ensures frame.kind == Some("typing") ==>
        && backend.chats == old(backend.chats)
        && backend.log == old(backend.log) + [Sent(state.roomName, TypingIndicator(NatToString(state.user), frame.isTyping.GetOr(false)), MembersOf(backend.groups, state.roomName))]
      ensures frame.kind != Some("typing") && Strip(frame.message.GetOr("")) == [] ==> unchanged(backend)
      ensures frame.kind != Some("typing") && Strip(frame.message.GetOr("")) != [] ==>
        var key := ChatKeyOf(state.user, state.otherUserId);
        var m := Message(state.user, Strip(frame.message.GetOr("")), now);
        && backend.chats == old(backend.chats)[key := MessagesOf(old(backend.chats), key) + [m]]
        && backend.log == old(backend.log) + [
             Stored(key, m),
             Sent(state.roomName, ChatMessage(m.text, NatToString(state.user), state.userObject.username, now), MembersOf(backend.groups, state.roomName))]
      ensures NoFriendTyping(old(backend.log)) ==> NoFriendTyping(backend.log)
    {
      if frame.kind == Some("typing") {
        HandleTypingEvent(frame);
        return;
      }
      var message := Strip(frame.message.GetOr(""));
      if message != [] {
        PostMessage(message, now);
      }
    }

    /** The non-empty branch of `receive`: persist the message, then publish it to the room. */
    method PostMessage(text: string, now: Time)
      requires Valid() && state.InRoom?
      modifies backend`chats, backend`log
      ensures var key := ChatKeyOf(state.user, state.otherUserId);
        var m := Message(state.user, text, now);
        && backend.chats == old(backend.chats)[key := MessagesOf(old(backend.chats), key) + [m]]
        && backend.log == old(backend.log) + [
             Stored(key, m),
             Sent(state.roomName, ChatMessage(text, NatToString(state.user), state.userObject.username, now), MembersOf(backend.groups, state.roomName))]
      ensures NoFriendTyping(old(backend.log)) ==> NoFriendTyping(backend.log)
    {
      var key := backend.GetOrCreateChat(state.user, state.otherUserId);
      var saved := backend.SaveMessage(key, state.user, text, now);
      backend.GroupSend(state.roomName, ChatMessage(saved.text, NatToString(state.user), state.userObject.username, saved.timestamp));
      AppendKeepsNoFriendTyping(old(backend.log), backend.log[|old(backend.log)|..]);
      assert backend.log == old(backend.log) + backend.log[|old(backend.log)|..];
    }

    /** `handle_typing_event`: one `typing_indicator` event to the room only; `is_typing` defaults to false. */
    method HandleTypingEvent(frame: Frame)
      requires Valid() && state.InRoom?
      modifies backend`log
      ensures backend.log == old(backend.log) + [Sent(state.roomName, TypingIndicator(NatToString(state.user), frame.isTyping.GetOr(false)), MembersOf(backend.groups, state.roomName))]
      ensures NoFriendTyping(old(backend.log)) ==> NoFriendTyping(backend.log)
    {
      backend.GroupSend(state.roomName, TypingIndicator(NatToString(state.user), frame.isTyping.GetOr(false)));
      AppendKeepsNoFriendTyping(old(backend.log), [backend.log[|backend.log| - 1]]);
    }

    /**
     * `disconnect`: with a room, leave it; with a user, run `user_disconnect`
     * on the consumer's own user object and, if its `is_online` flipped, fan
     * the status out. A `None` user passes the `hasattr` guard and raises
     * before the counter is touched.
     */
    method Disconnect(now: Time) returns (r: DisconnectResult)
      requires Valid()
      modifies this`state, backend`groups, backend`users, backend`log
      ensures Valid()
      ensures !old(state).InRoom? ==> state == old(state)
      ensures state.Unauthenticated? ==> r == Finished && unchanged(backend)
      ensures state.UserMissing? ==> r == RaisedAttributeError && unchanged(backend)
      ensures old(state).InRoom? ==>
        var u := old(state).user;
        var room := old(state).roomName;
        var copy := old(state).userObject;
        && r == Finished
        && backend.groups == old(backend.groups)[room := MembersOf(old(backend.groups), room) - {channelName}]
        && backend.users == old(backend.users)[u := AfterDisconnectFrom(old(backend.users[u]), copy, now)]
        && state == old(state).(userObject := backend.users[u])
        && (backend.users[u].isOnline == copy.isOnline ==> backend.log == old(backend.log))
        && (backend.users[u].isOnline != copy.isOnline ==>
              ExtendedByFanOut(old(backend.log), backend.log, StatusEvent(u, backend.users[u].isOnline),
                               PartnersAmong(backend.chats.Keys, u), backend.groups))
      ensures NoFriendTyping(old(backend.log)) ==> NoFriendTyping(backend.log)
    {
      r := Finished;
      if state.UserMissing? {
        r := RaisedAttributeError;
      } else if state.InRoom? {
        backend.GroupDiscard(state.roomName, channelName);
        var changed, saved := backend.UserDisconnect(state.user, state.userObject, now);
        state := state.(userObject := saved);
        if changed {
          BroadcastStatus();
        }
      }
    }
  }

  /** The attributes of a `ChatListConsumer`. */
  datatype ListState =
    | ListUnauthenticated
    | ListUserMissing
    | Subscribed(user: UserId, groupName: Group)

  class ChatListConsumer {
    const backend: Server
    const channelName: Channel
    const queryString: string
    var state: ListState
    var accepted: bool
    var closed: bool

    ghost predicate Valid()
      reads this`state, backend`tokens, backend`users
    {
      && backend.Valid()
      && (state.Subscribed? ==> state.user in backend.users && state.groupName == InboxName(state.user))
    }

    constructor (backend: Server, channelName: Channel, queryString: string)
      requires backend.Valid()
      ensures Valid()
      ensures this.backend == backend && this.channelName == channelName && this.queryString == queryString
      ensures state == ListUnauthenticated && !accepted && !closed
    {
      this.backend := backend;
      this.channelName := channelName;
      this.queryString := queryString;
      state := ListUnauthenticated;
      accepted := false;
      closed := false;
    }

    /**
     * `connect`: reads the token from the query dict; without a usable token,
     * or with a token of no user, the connection is closed with nothing
     * joined. Otherwise it joins `chatlist_{id}` and is accepted. The presence
     * counter is not touched.
     */
    method Connect()
      requires Valid() && state == ListUnauthenticated && !accepted && !closed
      modifies this`state, this`accepted, this`closed, backend`groups
      ensures Valid()
      ensures Rejects(ListToken(queryString)) ==>
        state == ListUnauthenticated && closed && !accepted && unchanged(backend)
      ensures var token := ListToken(queryString);
        !Rejects(token) && old(backend.UserFromToken(token.value)).None? ==>
          state == ListUserMissing && closed && !accepted && unchanged(backend)
      ensures var token := ListToken(queryString);
        !Rejects(token) && old(backend.UserFromToken(token.value)).Some? ==>
          var u := old(backend.UserFromToken(token.value)).value;
          && state == Subscribed(u, InboxName(u)) && accepted && !closed
          && backend.groups == old(backend.groups)[InboxName(u) := MembersOf(old(backend.groups), InboxName(u)) + {channelName}]
    {
      var token := ListToken(queryString);
      if Rejects(token) {
        closed := true;
        return;
      }
      var user := backend.UserFromToken(token.value);
      if user.None? {
        state := ListUserMissing;
        closed := true;
        return;
      }
      var u := user.value;
      state := Subscribed(u, InboxName(u));
      backend.GroupAdd(InboxName(u), channelName);
      accepted := true;
    }

    /** `disconnect`: leaves the inbox group if one was joined; nothing else. */
    method Disconnect()
      requires Valid()
      modifies backend`groups
      ensures Valid()
      ensures !state.Subscribed? ==> unchanged(backend)
      ensures state.Subscribed? ==>
        backend.groups == old(backend.groups)[state.groupName := MembersOf(old(backend.groups), state.groupName) - {channelName}]
    {
      if state.Subscribed? {
        backend.GroupDiscard(state.groupName, channelName);
      }
    }
  }
}
