/**
 * Group names of the channel layer and the key of the persisted chat row.
 * A private room is `chat_{min}_{max}` over the two user ids sorted ascending,
 * a user's inbox (conversation list) group is `chatlist_{id}`, and the `Chat`
 * row of a conversation is keyed by the same ordered pair `(user1_id, user2_id)`.
 */
module Rooms {
  import opened Text

  /** Primary keys of users; the chat URL admits only `\d+`, so ids are natural numbers. */
  type UserId = nat

  /** `(user1_id, user2_id)` of a `Chat` row. */
  type ChatKey = (UserId, UserId)

  function Min(a: nat, b: nat): nat { if a <= b then a else b }
  function Max(a: nat, b: nat): nat { if a <= b then b else a }

  /** The key `get_or_create_chat` looks up: `(min(a, b), max(a, b))`. */
  function ChatKeyOf(a: UserId, b: UserId): (k: ChatKey)
    ensures k.0 <= k.1
    ensures (k.0 == a && k.1 == b) || (k.0 == b && k.1 == a)
  {
    (Min(a, b), Max(a, b))
  }

  /** `f"chat_{user_ids[0]}_{user_ids[1]}"` with `user_ids = sorted([a, b])`. */
  function RoomName(a: UserId, b: UserId): string {
    "chat_" + NatToString(Min(a, b)) + "_" + NatToString(Max(a, b))
  }

  /** `f"chatlist_{id}"`. */
  function InboxName(u: UserId): string {
    "chatlist_" + NatToString(u)
  }

  /** Around position `i` of `r` lie the decimal renderings of `a` (after `chat_`) and `b` (to the end). */
  predicate IdsAt(r: string, i: nat, a: UserId, b: UserId)
    requires 5 < i < |r| - 1
  {
    && IsDigits(r[5..i]) && ParseDigits(r[5..i]) == a
    && IsDigits(r[i + 1..]) && ParseDigits(r[i + 1..]) == b
  }

  /** Both ids can be read back from a room name, the smaller first, around a `_`. */
  lemma RoomNameReadsBack(a: UserId, b: UserId)
    ensures |RoomName(a, b)| > 5 && RoomName(a, b)[..5] == "chat_"
    ensures exists i | 5 < i < |RoomName(a, b)| - 1 :: RoomName(a, b)[i] == '_' && IdsAt(RoomName(a, b), i, Min(a, b), Max(a, b))
  {
    var x, y := NatToString(Min(a, b)), NatToString(Max(a, b));
    var r := RoomName(a, b);
    var i := 5 + |x|;
    assert r[5..i] == x && r[i + 1..] == y;
    ParseNatToString(Min(a, b));
    ParseNatToString(Max(a, b));
    assert r[i] == '_' && IdsAt(r, i, Min(a, b), Max(a, b));
  }

  /** The id can be read back from an inbox group name. */
  lemma InboxNameReadsBack(u: UserId)
    ensures |InboxName(u)| > 9 && InboxName(u)[..9] == "chatlist_"
    ensures IsDigits(InboxName(u)[9..]) && ParseDigits(InboxName(u)[9..]) == u
  {
    assert InboxName(u)[9..] == NatToString(u);
    ParseNatToString(u);
  }

  /** Both participants compute the same room and the same chat key. */
  lemma RoomNameSymmetric(a: UserId, b: UserId)
    ensures RoomName(a, b) == RoomName(b, a)
    ensures ChatKeyOf(a, b) == ChatKeyOf(b, a)
  {
  }

  /** The room of a connection is the room of the chat row it writes to. */
  lemma RoomOfChatKey(a: UserId, b: UserId)
    ensures RoomName(a, b) == RoomName(ChatKeyOf(a, b).0, ChatKeyOf(a, b).1)
  {
  }

  /** Between `chat_` and a `_` there are only digits, so that `_` is the first one after `chat_`. */
  lemma SeparatorUnique(r: string, i: nat, j: nat)
    requires 5 < i < |r| && 5 < j < |r| && r[i] == '_' && r[j] == '_'
    requires IsDigits(r[5..i]) && IsDigits(r[5..j])
    ensures i == j
  {
  }

  /** Two pairs share a room exactly when they are the same unordered pair. */
  lemma RoomNameInjective(a: UserId, b: UserId, c: UserId, d: UserId)
    ensures RoomName(a, b) == RoomName(c, d) <==> ChatKeyOf(a, b) == ChatKeyOf(c, d)
  {
    if RoomName(a, b) == RoomName(c, d) {
      var r := RoomName(a, b);
      RoomNameReadsBack(a, b);
      RoomNameReadsBack(c, d);
      var i :| 5 < i < |r| - 1 && r[i] == '_' && IdsAt(r, i, Min(a, b), Max(a, b));
      var j :| 5 < j < |r| - 1 && r[j] == '_' && IdsAt(r, j, Min(c, d), Max(c, d));
      SeparatorUnique(r, i, j);
    }
  }

  /** Distinct users have distinct inbox groups. */
  lemma InboxNameInjective(u: UserId, v: UserId)
    ensures InboxName(u) == InboxName(v) <==> u == v
  {
    InboxNameReadsBack(u);
    InboxNameReadsBack(v);
  }

  /** No inbox group is a room: a status event never reaches a private chat room and vice versa. */
  lemma InboxIsNotRoom(u: UserId, a: UserId, b: UserId)
    ensures InboxName(u) != RoomName(a, b)
  {
    assert InboxName(u)[4] == 'l';
    assert RoomName(a, b)[4] == '_';
  }
}
