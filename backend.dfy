/**
 * The shared state behind the consumers: the token table and user rows of the
 * database, the `Chat`/`Message` tables, and an in-memory channel layer whose
 * groups map a name to the set of member channels. `log` records, in order,
 * every message persisted and every `group_send`, with the channels that were
 * members of the group at that moment.
 */
module Backend {
  import opened Wrappers
  import opened Text
  import opened Rooms
  import opened Presence

  /** A connection's `channel_name`. */
  type Channel = string

  /** A channel-layer group name. */
  type Group = string

  /** A persisted `Message` row. */
  datatype Message = Message(sender: UserId, text: string, timestamp: Time)

  /** The payloads handed to `group_send`, one constructor per `type`. */
  datatype Event =
    | ChatMessage(message: string, senderId: string, senderUsername: string, timestamp: Time)
    | TypingIndicator(userId: string, isTyping: bool)
    | Status(userId: string, status: string)
    | FriendTyping(userId: string, isTyping: bool)

  /** One step of the shared state's history. */
  datatype Effect =
    | Stored(chat: ChatKey, message: Message)
    | Sent(group: Group, event: Event, recipients: set<Channel>)

  function MembersOf(groups: map<Group, set<Channel>>, g: Group): set<Channel> {
    if g in groups then groups[g] else {}
  }

  function MessagesOf(chats: map<ChatKey, seq<Message>>, k: ChatKey): seq<Message> {
    if k in chats then chats[k] else []
  }

  /** The `status` payload of `broadcast_status` for a user whose `is_online` is `online`. */
  function StatusEvent(u: UserId, online: bool): Event {
    Status(NatToString(u), if online then "online" else "offline")
  }

  /** The user's id reads back from a status payload, which says `online` or `offline` according to the flag. */
  lemma StatusEventReadsBack(u: UserId, online: bool)
    ensures StatusEvent(u, online).Status?
    ensures IsDigits(StatusEvent(u, online).userId) && ParseDigits(StatusEvent(u, online).userId) == u
    ensures StatusEvent(u, online).status == "online" <==> online
    ensures StatusEvent(u, online).status == "offline" <==> !online
  {
    ParseNatToString(u);
  }

  /**
   * `get_chat_partners`: the users `p` with a chat `(p, u)` (`chat_user1__user2=u`)
   * or a chat `(u, p)` (`chat_user2__user1=u`), among the given chat keys.
   */
  function PartnersAmong(keys: set<ChatKey>, u: UserId): set<UserId> {
    (set k | k in keys && k.1 == u :: k.0) + (set k | k in keys && k.0 == u :: k.1)
  }

  /** The partners of `u` are exactly the users on the other side of a chat key with `u`, in either position. */
  lemma PartnersAmongMembers(keys: set<ChatKey>, u: UserId)
    ensures forall p :: p in PartnersAmong(keys, u) <==> (p, u) in keys || (u, p) in keys
  {
    forall p | (p, u) in keys
      ensures p in PartnersAmong(keys, u)
    {
      var k := (p, u);
      assert k in keys && k.1 == u;
    }
    forall p | (u, p) in keys
      ensures p in PartnersAmong(keys, u)
    {
      var k := (u, p);
      assert k in keys && k.0 == u;
    }
  }

  /** Adding one chat key adds at most its other participant. */
  lemma PartnersAmongInsert(keys: set<ChatKey>, k: ChatKey, u: UserId)
    ensures PartnersAmong(keys + {k}, u) ==
      PartnersAmong(keys, u) + (if k.1 == u then {k.0} else {}) + (if k.0 == u then {k.1} else {})
  {
  }

  predicate Distinct<T(==)>(s: seq<T>) {
    forall i, j | 0 <= i < j < |s| :: s[i] != s[j]
  }

  function Elems<T>(s: seq<T>): set<T> {
    set x | x in s
  }

  /** A distinct list has as many elements as its set. */
  lemma {:induction false} DistinctCard<T>(s: seq<T>)
    requires Distinct(s)
    ensures |Elems(s)| == |s|
    decreases |s|
  {
    if s != [] {
      var t := s[..|s| - 1];
      assert Distinct(t);
      DistinctCard(t);
      assert Elems(s) == Elems(t) + {s[|s| - 1]};
      assert s[|s| - 1] !in Elems(t);
    }
  }

  /** The sends of one status event, in list order, to the inbox of each listed partner. */
  function StatusSends(ps: seq<UserId>, ev: Event, groups: map<Group, set<Channel>>): seq<Effect> {
    seq(|ps|, i requires 0 <= i < |ps| => Sent(InboxName(ps[i]), ev, MembersOf(groups, InboxName(ps[i]))))
  }

  /** The groups the sends in `sends` went to. */
  function GroupsOf(sends: seq<Effect>): set<Group> {
    set i | 0 <= i < |sends| && sends[i].Sent? :: sends[i].group
  }

  /** The inbox groups of a set of users. */
  function InboxesOf(users: set<UserId>): set<Group> {
    set p | p in users :: InboxName(p)
  }

  /**
   * `sends` is a status fan-out of `ev` to `partners`: one send per partner,
   * each to a different group, the groups being exactly the partners' inbox
   * groups, each delivered to the group's current members.
   */
  ghost predicate IsStatusFanOut(sends: seq<Effect>, ev: Event, partners: set<UserId>, groups: map<Group, set<Channel>>) {
    && |sends| == |partners|
    && (forall i | 0 <= i < |sends| :: sends[i].Sent? && sends[i].event == ev && sends[i].recipients == MembersOf(groups, sends[i].group))
    && (forall i, j | 0 <= i < j < |sends| :: sends[i].group != sends[j].group)
    && GroupsOf(sends) == InboxesOf(partners)
  }

  /** `after` is `before` followed by a status fan-out of `ev` to `partners`. */
  ghost predicate ExtendedByFanOut(before: seq<Effect>, after: seq<Effect>, ev: Event, partners: set<UserId>, groups: map<Group, set<Channel>>) {
    |before| <= |after| && after[..|before|] == before && IsStatusFanOut(after[|before|..], ev, partners, groups)
  }

  /**
   * No `friend_typing` event is in the log: `ChatListConsumer` has a handler
   * for that type, but nothing in the engine ever publishes one.
   */
  ghost predicate NoFriendTyping(log: seq<Effect>) {
    forall i | 0 <= i < |log| :: log[i].Sent? ==> !log[i].event.FriendTyping?
  }

  /** Appending effects none of which is a `friend_typing` send keeps the log free of them. */
  lemma AppendKeepsNoFriendTyping(log: seq<Effect>, more: seq<Effect>)
    requires NoFriendTyping(more)
    ensures NoFriendTyping(log) ==> NoFriendTyping(log + more)
  {
    forall i | 0 <= i < |log + more| && (log + more)[i].Sent? && NoFriendTyping(log)
      ensures !(log + more)[i].event.FriendTyping?
    {
      if i >= |log| {
        assert (log + more)[i] == more[i - |log|];
      }
    }
  }

  /** A fan-out of an event that is not `friend_typing` keeps the log free of them. */
  lemma FanOutKeepsNoFriendTyping(before: seq<Effect>, after: seq<Effect>, ev: Event, partners: set<UserId>,
                                  groups: map<Group, set<Channel>>)
    requires ExtendedByFanOut(before, after, ev, partners, groups) && !ev.FriendTyping?
    ensures NoFriendTyping(before) ==> NoFriendTyping(after)
  {
    forall i | 0 <= i < |after| && after[i].Sent? && NoFriendTyping(before)
      ensures !after[i].event.FriendTyping?
    {
      if i < |before| {
        assert after[i] == after[..|before|][i];
      } else {
        assert after[i] == after[|before|..][i - |before|];
      }
    }
  }

  lemma StatusSendsSnoc(ps: seq<UserId>, p: UserId, ev: Event, groups: map<Group, set<Channel>>)
    ensures StatusSends(ps + [p], ev, groups) == StatusSends(ps, ev, groups) + [Sent(InboxName(p), ev, MembersOf(groups, InboxName(p)))]
  {
  }

  /** Distinct partners get distinct inbox groups. */
  lemma StatusSendsDistinctGroups(ps: seq<UserId>, ev: Event, groups: map<Group, set<Channel>>)
    requires Distinct(ps)
    ensures var sends := StatusSends(ps, ev, groups);
      forall i, j | 0 <= i < j < |sends| :: sends[i].group != sends[j].group
  {
    var sends := StatusSends(ps, ev, groups);
    forall i, j | 0 <= i < j < |sends|
      ensures sends[i].group != sends[j].group
    {
      InboxNameInjective(ps[i], ps[j]);
    }
  }

  /** The sends reach exactly the inboxes of the listed partners. */
  lemma StatusSendsGroups(ps: seq<UserId>, ev: Event, groups: map<Group, set<Channel>>)
    ensures GroupsOf(StatusSends(ps, ev, groups)) == InboxesOf(Elems(ps))
  {
    var sends := StatusSends(ps, ev, groups);
    forall g | g in InboxesOf(Elems(ps))
      ensures g in GroupsOf(sends)
    {
      var p :| p in Elems(ps) && g == InboxName(p);
      var i :| 0 <= i < |ps| && ps[i] == p;
      assert sends[i].group == g;
    }
    forall g | g in GroupsOf(sends)
      ensures g in InboxesOf(Elems(ps))
    {
      var i :| 0 <= i < |sends| && sends[i].group == g;
      assert ps[i] in Elems(ps);
    }
  }

  /** Sending to a distinct list of the partners is a fan-out to the partner set. */
  lemma StatusSendsFanOut(ps: seq<UserId>, ev: Event, partners: set<UserId>, groups: map<Group, set<Channel>>)
    requires Distinct(ps) && Elems(ps) == partners
    ensures IsStatusFanOut(StatusSends(ps, ev, groups), ev, partners, groups)
  {
    DistinctCard(ps);
    StatusSendsDistinctGroups(ps, ev, groups);
    StatusSendsGroups(ps, ev, groups);
  }

  /** The database tables and the channel layer, as one server process sees them. */
  class Server {
    /** `Token.key -> Token.user`. */
    var tokens: map<string, UserId>
    /** The user table. */
    var users: map<UserId, UserRow>
    /** The `Chat` rows, each with its messages in creation order. */
    var chats: map<ChatKey, seq<Message>>
    /** Channel-layer group membership. */
    var groups: map<Group, set<Channel>>
    /** Messages persisted and events published, in order. */
    var log: seq<Effect>

    /** Every token belongs to a user (a foreign key). */
    ghost predicate Valid()
      reads this`tokens, this`users
    {
      forall t | t in tokens :: tokens[t] in users
    }

    constructor (tokens: map<string, UserId>, users: map<UserId, UserRow>, chats: map<ChatKey, seq<Message>>)
      requires forall t | t in tokens :: tokens[t] in users
      ensures Valid()
      ensures this.tokens == tokens && this.users == users && this.chats == chats
      ensures groups == map[] && log == []
    {
      this.tokens := tokens;
      this.users := users;
      this.chats := chats;
      groups := map[];
      log := [];
    }

    /** `Token.objects.get(key=token).user`, or `None` on `Token.DoesNotExist`. */
    function UserFromToken(token: string): (r: Option<UserId>)
      reads this`tokens, this`users
      requires Valid()
      ensures r.None? <==> token !in tokens
      ensures r.Some? ==> r.value in users && r.value == tokens[token]
    {
      if token in tokens then Some(tokens[token]) else None
    }

    /** `channel_layer.group_add`. */
    method GroupAdd(g: Group, c: Channel)
      modifies this`groups
      ensures groups == old(groups)[g := MembersOf(old(groups), g) + {c}]
    {
      groups := groups[g := MembersOf(groups, g) + {c}];
    }

    /** `channel_layer.group_discard`; a channel that is not a member is a no-op. */
    method GroupDiscard(g: Group, c: Channel)
      modifies this`groups
      ensures groups == old(groups)[g := MembersOf(old(groups), g) - {c}]
    {
      groups := groups[g := MembersOf(groups, g) - {c}];
    }

    /** `channel_layer.group_send`: delivered to the group's members at this moment (none is not an error). */
    method GroupSend(g: Group, ev: Event)
      modifies this`log
      ensures log == old(log) + [Sent(g, ev, MembersOf(groups, g))]
    {
      log := log + [Sent(g, ev, MembersOf(groups, g))];
    }

    /** `Chat.objects.get_or_create(user1_id=min, user2_id=max)`. */
    method GetOrCreateChat(a: UserId, b: UserId) returns (key: ChatKey)
      modifies this`chats
      ensures key == ChatKeyOf(a, b) && key in chats
      ensures chats == if key in old(chats) then old(chats) else old(chats)[key := []]
    {
      key := ChatKeyOf(a, b);
      if key !in chats {
        chats := chats[key := []];
      }
    }

    /** `Message.objects.create(chat=..., sender=..., message=...)`, stamped at `now`. */
    method SaveMessage(key: ChatKey, sender: UserId, text: string, now: Time) returns (m: Message)
      requires key in chats
      modifies this`chats, this`log
      ensures m == Message(sender, text, now)
      ensures chats == old(chats)[key := old(chats[key]) + [m]]
      ensures log == old(log) + [Stored(key, m)]
    {
      m := Message(sender, text, now);
      chats := chats[key := chats[key] + [m]];
      log := log + [Stored(key, m)];
    }

    /** `PrivateChatConsumer.user_connect`: returns whether `is_online` changed. */
    method UserConnect(u: UserId) returns (changed: bool)
      requires u in users
      modifies this`users
      ensures users == old(users)[u := AfterConnect(old(users[u]))]
      ensures changed == (old(users[u].isOnline) != users[u].isOnline)
    {
      var prev := users[u].isOnline;
      users := users[u := users[u].(activeConnections := users[u].activeConnections + 1)];
      if users[u].activeConnections == 1 {
        users := users[u := users[u].(isOnline := true, lastOnline := None)];
      }
      changed := prev != users[u].isOnline;
    }

    /**
     * `PrivateChatConsumer.user_disconnect` at time `now`, on the consumer's
     * own user object `copy`: `prev_status` is the copy's flag, and `save()`
     * writes the copy back with the count decremented in the database. Returns
     * whether `is_online` changed and the object as reloaded and saved.
     */
    method UserDisconnect(u: UserId, copy: UserRow, now: Time) returns (changed: bool, saved: UserRow)
      requires u in users
      modifies this`users
      ensures users == old(users)[u := AfterDisconnectFrom(old(users[u]), copy, now)]
      ensures saved == users[u]
      ensures changed == (copy.isOnline != saved.isOnline)
    {
      var prev := copy.isOnline;
      users := users[u := copy.(activeConnections := users[u].activeConnections - 1)];
      saved := users[u];
      if saved.activeConnections == 0 {
        saved := saved.(isOnline := false, lastOnline := Some(now));
        users := users[u := saved];
      }
      changed := prev != saved.isOnline;
    }

    /**
     * `OnlineStatusConsumer.user_connect`: the same update, with nothing
     * reported, computed on the consumer's own user object `copy` and saved
     * over the row.
     */
    method StatusUserConnect(u: UserId, copy: UserRow)
      requires u in users
      modifies this`users
      ensures users == old(users)[u := AfterConnect(copy)]
    {
      var row := copy;
      row := row.(activeConnections := row.activeConnections + 1);
      if row.activeConnections == 1 {
        row := row.(isOnline := true, lastOnline := None);
      }
      users := users[u := row];
    }

    /**
     * `OnlineStatusConsumer.user_disconnect`: the decrement floored at 0,
     * computed on the consumer's own user object `copy` and saved over the row.
     */
    method StatusUserDisconnect(u: UserId, copy: UserRow, now: Time)
      requires u in users
      modifies this`users
      ensures users == old(users)[u := AfterDisconnectFloored(copy, now)]
    {
      var row := copy;
      row := row.(activeConnections := if 0 > row.activeConnections - 1 then 0 else row.activeConnections - 1);
      if row.activeConnections == 0 {
        row := row.(isOnline := false, lastOnline := Some(now));
      }
      users := users[u := row];
    }

    /** `get_chat_partners`: each partner once, in an order the database does not fix. */
    method GetChatPartners(u: UserId) returns (ps: seq<UserId>)
      ensures Distinct(ps)
      ensures Elems(ps) == PartnersAmong(chats.Keys, u)
    {
      var todo := chats.Keys;
      ps := [];
      while todo != {}
        invariant todo <= chats.Keys
        invariant Distinct(ps)
        invariant Elems(ps) == PartnersAmong(chats.Keys - todo, u)
        decreases todo
      {
        var k :| k in todo;
        ghost var done := chats.Keys - todo;
        PartnersAmongInsert(done, k, u);
        todo := todo - {k};
        assert chats.Keys - todo == done + {k};
        if k.1 == u && k.0 !in Elems(ps) {
          ps := ps + [k.0];
        }
        if k.0 == u && k.1 !in Elems(ps) {
          ps := ps + [k.1];
        }
      }
      assert chats.Keys - todo == chats.Keys;
    }
  }
}
