# Real-time connection engine of a private chat server, in Dafny

This project models the WebSocket side of a small Django Channels chat
server (`authapp/consumers.py`): how a connection authenticates from its
query string, which channel-layer groups it joins, how the per-user presence
counter (`active_connections`, `is_online`, `last_online`) moves as
connections open and close, how chat messages and typing events are persisted
and published, and how a presence change is fanned out to the conversation
lists of every chat partner.

The model has these modules:

- `Text`: the Python string primitives the engine relies on. These are `str(n)`
  and `int(s)` for user ids, `str.strip()` for message bodies, and
  `str.split` for query strings.
- `Rooms`: the names `chat_{min}_{max}` (a private room) and
  `chatlist_{id}` (a user's inbox group), and the ordered key `(min, max)` of a
  `Chat` row.
- `QueryString`: the two token parsers. `PrivateChatConsumer` takes the first
  `&`-segment starting with `token=` and keeps what lies between its first and
  second `=`. `ChatListConsumer` and `OnlineStatusConsumer` build a dict of
  segments split at their first `=`, in which the last duplicate wins and a
  segment without `=` maps to `""`.
- `Presence`: a user row and the row after each presence helper, including the
  floored decrement of `OnlineStatusConsumer`. It also replays runs of
  connects and disconnects against one row.
- `Backend`: the class `Server` over the database and the channel layer, all
  held in maps. Its fields are the token table, user rows, chats with their messages,
  and group memberships. An append-only `log` records every persisted message
  and every `group_send`, with the channels that were members of the target
  group at that moment.
- `Consumers`: `PrivateChatConsumer` and `ChatListConsumer` as classes. The
  attributes the source sets one by one and later probes with `hasattr` are
  a tagged state.
  - `Unauthenticated`: no attribute is set.
  - `UserMissing`: `self.user = None`.
  - `InRoom`: `user`, `other_user_id` and `room_name` are set.
- `Scenarios`: client methods that open, use and close connections. They
  conclude exact backend states from the contracts alone.

Four behaviours of the code are modelled as written:

- `self.user = None` passes the `hasattr(self, 'user')` guard in
  `disconnect`. The following `user_disconnect` then raises `AttributeError`,
  and the room, the counter and the log stay unchanged.
- `PrivateChatConsumer.user_disconnect` does not floor the count at 0, while
  `OnlineStatusConsumer.user_disconnect` does.
- `ChatListConsumer` has a `friend_typing` handler, but no code path ever
  publishes a `friend_typing` event. Typing events go only to the private
  room.
- `PrivateChatConsumer.user_disconnect` works on the consumer's own user
  object (`self.user`), as loaded at connect time or saved since. It compares
  against that object's `is_online`, and its first `save()` writes every
  cached field back over the row. When another connection of the same user
  has changed the row in between, the reported flip can differ from the
  row's own. The consumer's state keeps that object, and the disconnect is
  computed from it.

## Model

| member | source | states |
|---|---|---|
| Text.NatToString | authapp/consumers.py:31 | an id renders as a non-empty string of decimal digits with no leading zero |
| Text.ParseNatToString | authapp/consumers.py:29 | `int(str(n)) == n`: parsing the rendered id gives the id back |
| Text.NatToStringInjective | authapp/consumers.py:31 | two ids render to the same text exactly when they are equal |
| Text.ParseDigits | authapp/consumers.py:29 | `int(s)` of a URL id: a canonical digit string (a single digit, or no leading `0`) reads back as the value whose `str` is that string |
| Text.ParseLeadingZero | authapp/consumers.py:29 | a leading `0` in the URL id does not change the parsed partner id |
| Text.Strip | authapp/consumers.py:58 | the result is the input with its leading and trailing whitespace cut off: a contiguous slice of the input with only whitespace before and after it. It is empty exactly when the input is all whitespace; otherwise it starts and ends with non-whitespace |
| Text.SuffixThenPrefix | authapp/consumers.py:58 | cutting whitespace from the left and then from the right leaves the slice of the input between its whitespace ends |
| Text.TrimLeft | authapp/consumers.py:58 | the result is a suffix of the input; everything cut off is whitespace; a non-empty result does not start with whitespace |
| Text.TrimRight | authapp/consumers.py:58 | the result is a prefix of the input; everything cut off is whitespace; a non-empty result does not end with whitespace |
| Text.StripIdempotent | authapp/consumers.py:58 | stripping a stripped message changes nothing |
| Text.Split | authapp/consumers.py:17 | at least one piece; no piece contains the separator; joining the pieces with it gives back the input |
| Text.SplitJoin | authapp/consumers.py:17 | splitting a join of separator-free pieces gives back exactly those pieces |
| Rooms.ChatKeyOf | authapp/consumers.py:113-117 | the chat key is the two ids in ascending order |
| Rooms.RoomNameReadsBack | authapp/consumers.py:30-31 | `RoomName`: a room name starts with `chat_` and holds, around one `_`, the smaller and then the larger id, each read back by `int` |
| Rooms.InboxNameReadsBack | authapp/consumers.py:151 | `InboxName`: an inbox group name is `chatlist_` followed by the decimal digits of the user id, which read back as that id (also line 183) |
| Rooms.RoomNameSymmetric | authapp/consumers.py:30-31 | both participants compute the same room name and the same chat key |
| Rooms.RoomOfChatKey | authapp/consumers.py:30-31 | the room of a connection is named after the ordered pair that keys the chat row it writes to (lines 115-116) |
| Rooms.RoomNameInjective | authapp/consumers.py:31 | two pairs share a room name exactly when they are the same unordered pair |
| Rooms.InboxNameInjective | authapp/consumers.py:183 | two users share an inbox group name exactly when they are the same user |
| Rooms.InboxIsNotRoom | authapp/consumers.py:151 | no inbox group name is a room name |
| QueryString.TokenField | authapp/consumers.py:18 | `split("=")[1]` of a `token=` segment is free of `=` and is either the whole rest of the segment or the rest up to its next `=` |
| QueryString.FirstToken | authapp/consumers.py:18 | the generator yields `None` exactly when no segment starts with `token=` |
| QueryString.PrivateChatToken | authapp/consumers.py:17-18 | `None` exactly when no `&`-segment starts with `token=`; a token read is free of `&` and `=` |
| QueryString.FirstTokenFree | authapp/consumers.py:17-18 | a character that no segment holds is not in the token read from them |
| QueryString.FieldAfterPrefix | authapp/consumers.py:18 | the field of `token=v` is the part of `v` before its first `=` |
| QueryString.FirstTokenPicksFirst | authapp/consumers.py:18 | the token read is the field of the first segment that starts with `token=` |
| QueryString.TokenFieldOf | authapp/consumers.py:18 | the field of `token=t` and of `token=t=rest` is `t` |
| QueryString.KeyValue | authapp/consumers.py:172 | a segment with `=` splits at its first `=` into a key free of `=` and the rest; a segment without `=` maps to `""` |
| QueryString.KeyValueOf | authapp/consumers.py:172 | `key=value` with `=` not in the key splits into exactly that key and value |
| QueryString.QueryDict | authapp/consumers.py:172 | the dict has exactly the keys of the segments |
| QueryString.QueryDictValue | authapp/consumers.py:172-173 | every value in the dict is the value of the last segment carrying its key |
| QueryString.ListToken | authapp/consumers.py:171-173 | `query_params.get("token")`: `None` exactly when no segment has the key `token`; otherwise the value of the last segment with that key |
| QueryString.QueryDictLastWins | authapp/consumers.py:172-173 | a repeated key holds the value of its last segment |
| QueryString.QueryDictMissing | authapp/consumers.py:172-173 | a key that no segment carries is absent from the dict |
| QueryString.SingleTokenSegment | authapp/consumers.py:17-18 | for a one-segment query `token=v`, the first parser reads that segment's field and the dict parser reads `v` |
| QueryString.PlainTokenQuery | authapp/consumers.py:171-173 | `token=v` with `v` free of `&` and `=` gives `v` to both parsers |
| QueryString.ParsersDisagreeOnEquals | authapp/consumers.py:172 | for `token=t=rest`, the private chat reads `t` while the conversation list reads `t=rest` (line 18 against line 172) |
| QueryString.ParsersDisagreeOnRepeats | authapp/consumers.py:17-20 | for `token=&token=k`, the private chat reads the empty first token and closes, while the conversation list reads `k` (the last one) |
| Presence.ConnectTransition | authapp/consumers.py:123-133 | `AfterConnect`, the row after `user_connect`: from a consistent row, a connect adds exactly one to the count and keeps the row consistent. It flips `is_online` exactly when the count was 0, and on that flip the user is online with `last_online` cleared |
| Presence.DisconnectTransition | authapp/consumers.py:135-145 | `AfterDisconnect`, the row after `user_disconnect` when the consumer's cached object agrees with the row (`DisconnectWhileConnected`): from a consistent row, a disconnect subtracts exactly one from the count and keeps the row consistent. It flips `is_online` exactly when the count was 1, and on that flip the user is offline with `last_online` set to now |
| Presence.FlooredDisconnectTransition | authapp/consumers.py:242-248 | `AfterDisconnectFloored`, the row after `OnlineStatusConsumer.user_disconnect`: from a consistent row, it subtracts one from a positive count and leaves 0 at 0, keeps the row consistent and flips exactly when the count was 1. Whenever the count ends at 0 (from 1, or again from 0), `last_online` is stamped with now |
| Presence.DecrementsDiverge | authapp/consumers.py:242-248 | from an idle row, the unfloored decrement of line 138 goes to -1, and a later connect no longer brings the user online; the floored one stays at 0 |
| Presence.DisconnectWhileConnected | authapp/consumers.py:135-145 | while both the cached user object and the row are consistent with at least one connection, the disconnect from the object writes the same row as one from the row, and compares against the row's own flag |
| Presence.DisconnectFromTransition | authapp/consumers.py:135-145 | `AfterDisconnectFrom`, the row after `user_disconnect` for any row and any cached object: the count is the row's less one; when that reaches 0 the row is offline with `last_online` set to now, otherwise it carries the cached flag and stamp written back by `save()`. A flip is reported exactly when the row's count was 1 and the cached object said online |
| Presence.StaleCopyHidesFlip | authapp/consumers.py:135-145 | an object cached at count 0 after a row at -1: when a second connection has brought the user online, closing the first takes the row offline with a stamp but reports no flip, although the row itself flipped |
| Presence.ReplayAppend | authapp/consumers.py:123-145 | for connections whose cached object agrees with the row (`DisconnectWhileConnected`), replaying two runs of presence calls one after the other is replaying their concatenation, and the flips add up |
| Presence.ReplayOpens | authapp/consumers.py:123-133 | `n` connects add `n` to the count and report one flip exactly when the count started at 0 |
| Presence.ReplayCloses | authapp/consumers.py:135-145 | for cached objects that agree with the row, `m` disconnects, no more than the count, subtract `m` and report one flip exactly when the count reaches 0 |
| Presence.OpensThenCloses | authapp/consumers.py:123-145 | for cached objects that agree with the row, from idle, `n` connects and then `m <= n` disconnects leave the count at `n - m`, online exactly when `n - m > 0`, with one flip for coming online and a second only when all connections closed |
| Presence.ThreeOpensTwoCloses | authapp/consumers.py:123-145 | for cached objects that agree with the row, three devices opened and two closed: one flip only, and the user is online with one connection |
| Backend.StatusEventReadsBack | authapp/consumers.py:153-155 | `StatusEvent`: a `status` payload whose `user_id` reads back as the user's id and whose status is `online` exactly when the user is online, `offline` exactly when not |
| Backend.PartnersAmongMembers | authapp/consumers.py:159-163 | `PartnersAmong`, the model of the query: `p` is a partner of `u` exactly when `(p, u)` or `(u, p)` keys a chat |
| Backend.PartnersAmongInsert | authapp/consumers.py:159-163 | adding one chat key adds at most its other participant to the partners of a user |
| Backend.DistinctCard | authapp/consumers.py:148-149 | a list of distinct partners has as many elements as its set, so the loop sends once per partner |
| Backend.StatusSendsDistinctGroups | authapp/consumers.py:151 | distinct partners get distinct inbox groups |
| Backend.StatusSendsGroups | authapp/consumers.py:149-151 | the sends reach exactly the inboxes of the listed partners |
| Backend.StatusSendsFanOut | authapp/consumers.py:147-157 | sending to a duplicate-free list of the partners is a status fan-out to the partner set |
| Backend.FanOutKeepsNoFriendTyping | authapp/consumers.py:197-198 | a status fan-out never adds a `friend_typing` send to the log |
| Backend.AppendKeepsNoFriendTyping | authapp/consumers.py:197-198 | appending effects that hold no `friend_typing` send keeps the log free of them |
| Backend.Server.UserFromToken | authapp/consumers.py:105-110 | `None` exactly when no token row has that key; otherwise the token's user, which exists |
| Backend.Server.GroupAdd | authapp/consumers.py:33 | the channel joins the group; no other group changes |
| Backend.Server.GroupDiscard | authapp/consumers.py:46 | the channel leaves the group, a no-op if it was not a member; no other group changes |
| Backend.Server.GroupSend | authapp/consumers.py:65-74 | one send is appended to the log, delivered to the group's members at that moment |
| Backend.Server.GetOrCreateChat | authapp/consumers.py:112-117 | returns the ordered key of the pair, which exists afterwards; an existing chat is kept as it is, a missing one is created empty |
| Backend.Server.SaveMessage | authapp/consumers.py:119-121 | the message is appended to its chat and logged as stored |
| Backend.Server.UserConnect | authapp/consumers.py:123-133 | the row becomes `AfterConnect` of the old row; the result says whether `is_online` changed |
| Backend.Server.UserDisconnect | authapp/consumers.py:135-145 | the consumer's cached object is written back with the row's count decremented and no flooring, then stamped offline at `now` if the count reached 0 (`AfterDisconnectFrom`); it returns the object as saved, and the result says whether its `is_online` differs from the cached object's |
| Backend.Server.StatusUserConnect | authapp/consumers.py:234-240 | the row becomes `AfterConnect` of the consumer's cached object |
| Backend.Server.StatusUserDisconnect | authapp/consumers.py:242-248 | the row becomes `AfterDisconnectFloored` of the consumer's cached object at `now` |
| Backend.Server.GetChatPartners | authapp/consumers.py:159-163 | a duplicate-free list whose elements are exactly the users sharing a chat with the user, on either side of the key |
| Consumers.PrivateChatHandler | authapp/consumers.py:76-89 | a private room handles `chat_message`, which it forwards unchanged, and `typing_indicator`, which it rewrites with the delivery time; no other type |
| Consumers.ChatListHandler | authapp/consumers.py:194-198 | a conversation list handles exactly `status` and `friend_typing`, forwarding the event unchanged |
| Consumers.StatusReachesListsOnly | authapp/consumers.py:147-157 | a status event is handled by a conversation list and by no private room; its inbox target is never a room |
| Consumers.PrivateChatConsumer.Connect | authapp/consumers.py:15-42 | no usable token: the connection closes and nothing changes. A token with no user: `UserMissing`, closed, nothing changes. Otherwise the connection is in room `chat_{min}_{max}` with the parsed partner, joins it, is accepted and runs `user_connect`, and keeps the user object as saved. On a flip the log gains exactly a status fan-out to the chat partners; with no flip it is unchanged |
| Consumers.PrivateChatConsumer.EnterRoom | authapp/consumers.py:29-39 | the accepted branch of `connect`: the room is joined, the connection accepted, the row becomes `AfterConnect` of the old row, and the log gains a status fan-out exactly on a flip |
| Consumers.PrivateChatConsumer.BroadcastStatus | authapp/consumers.py:147-157 | the log gains exactly one `status` send to each partner's inbox, saying whether the consumer's user object is online, and nothing else |
| Consumers.PrivateChatConsumer.Receive | authapp/consumers.py:52-74 | a `typing` frame sends one typing indicator to the room, and nothing is stored. A message that is empty after stripping changes nothing. Any other message is appended to the pair's chat, then one `chat_message` goes to the room, in that order |
| Consumers.PrivateChatConsumer.PostMessage | authapp/consumers.py:62-74 | the stripped text is stored in the pair's chat, then published to the room with the sender's id, username and the stored timestamp |
| Consumers.PrivateChatConsumer.HandleTypingEvent | authapp/consumers.py:91-103 | one `typing_indicator` goes to the room only, `is_typing` defaulting to false |
| Consumers.PrivateChatConsumer.Disconnect | authapp/consumers.py:44-50 | no user attribute: nothing changes. `UserMissing`: `AttributeError` is raised and nothing changes. In a room: the connection leaves it and runs `user_disconnect` on its cached user object, which then holds the row as saved; the log gains a status fan-out exactly when the saved flag differs from the cached one |
| Consumers.ChatListConsumer.Connect | authapp/consumers.py:169-188 | no usable token, or a token with no user: the connection closes and nothing changes. Otherwise it joins `chatlist_{id}` and is accepted; presence is untouched |
| Consumers.ChatListConsumer.Disconnect | authapp/consumers.py:190-192 | leaves the inbox group if one was joined; nothing else changes |
| Scenarios.OnlyPartner | authapp/consumers.py:159-163 | with the single chat `(a, b)`, the only partner of `a` is `b` |
| Scenarios.FanOutToOne | authapp/consumers.py:147-157 | a fan-out to one partner is exactly one send, to that partner's inbox |

## Left out

- Concurrency: the handlers are async and interleave at every `await`. The
  model runs each handler as one atomic step, so races between two
  connections of the same user on the counter are not modelled.
- Backend.Server.UserConnect: `prev_status` and the fields that `save()`
  writes back are taken from the row at the time of the call. The source
  takes them from the user object loaded on line 24 of the same `connect`.
  The two are equal because each handler runs as one step.
- Backend.Server.GetChatPartners: returns each partner once. The source's
  query over two reverse joins can return a partner more than once, which
  would repeat that partner's status send.
- Backend.Server.GetChatPartners: the order of the partners is left open, as
  the query has no `order_by`.
- `OnlineStatusConsumer.connect` and its `disconnect`: on line 217, `.user`
  is read from the coroutine that `database_sync_to_async(Token.objects.get)(key=token)`
  returns, before anything is awaited. That raises `AttributeError`, so
  `connect` always closes before it sets `self.user` or joins `status_{id}`.
  Its counter helpers (lines 234-248) are modelled, each on the user object
  it is given.
- Consumers.PrivateChatConsumer.Connect: the `except Exception` path is not
  modelled. After `accept`, it would close an already accepted connection
  when `user_connect` or `broadcast_status` raises, for example on a
  database error. Before `accept`, `int()` on line 29 raises `ValueError` for
  an id longer than Python's integer conversion limit (4300 digits by
  default), which `\d+` admits, and `group_add` on line 33 can fail. In both
  cases `self.user` is already set on line 24, so the later `disconnect`
  runs `user_disconnect` with no matching `user_connect`. That unpaired
  decrement is how a row reaches the count of -1 that `DecrementsDiverge`
  and `StaleCopyHidesFlip` start from. The model enters the room on these
  inputs instead.
- Text.ParseDigits: parses digit strings of any length. Python's `int()`
  refuses strings longer than its integer conversion limit (4300 digits by
  default).
- Consumers.PrivateChatConsumer.Receive: frames are reduced to optional string
  `type` and `message` keys and an optional boolean `is_typing`. Malformed
  JSON and values of other JSON types (which make `.strip()` raise) are not
  modelled.
- The `\d+` route segment is modelled as ASCII digits. Python's `\d` also
  matches other Unicode decimal digits, which `int()` accepts.
- The query string is split as raw text with no percent-decoding, as in the
  source; byte-level `decode()` errors are not modelled.
- `print` calls, `accept`/`close` transport frames and the JSON encoding of
  outbound frames are not modelled. `accepted` and `closed` are flags on the
  consumer.
- Time is an abstract clock value passed in by the caller, standing in for
  `datetime.now()`, and there is no ISO formatting.
- Database integrity errors are not modelled: a room with a partner id that
  has no user row, or a message to such a chat.
- Views, serializers, models, URL routing and the ASGI setup are not part of
  this model.
- Variants of the engine that the code does not implement are not modelled:
  - a variant in which typing events also reach the partner's inbox as
    `friend_typing`; here only the room gets a typing event;
  - a variant in which conversation-list connections count towards presence;
    here `ChatListConsumer` never calls the counter;
  - a variant that floors every decrement at 0; here `PrivateChatConsumer`
    does not;
  - a variant that rejects a chat with oneself; here a URL naming the user's
    own id is accepted. Once a message there creates the chat `(u, u)`
    (lines 62 and 114-116), the user counts as their own chat partner.
