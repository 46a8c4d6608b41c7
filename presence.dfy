/**
 * The presence counter kept on each user row: `active_connections`,
 * `is_online` and `last_online`. `user_connect` / `user_disconnect` of
 * `PrivateChatConsumer` bump the counter and report whether `is_online`
 * flipped; `OnlineStatusConsumer` has a second pair of helpers whose
 * decrement is floored at 0 and which report nothing.
 *
 * The functions here give the row after one call; `Backend` applies them
 * in place, and the lemmas below say what a call and a run of calls do.
 */
module Presence {
  import opened Wrappers

  /** A value of the abstract clock standing in for `datetime.now()`. */
  type Time = nat

  /** The fields of a user row that the connection engine reads or writes. */
  datatype UserRow = UserRow(username: string, activeConnections: int, isOnline: bool, lastOnline: Option<Time>)

  /** The row after `PrivateChatConsumer.user_connect`. */
  function AfterConnect(u: UserRow): UserRow {
    var n := u.activeConnections + 1;
    if n == 1 then u.(activeConnections := n, isOnline := true, lastOnline := None)
    else u.(activeConnections := n)
  }

  /** The row after `PrivateChatConsumer.user_disconnect` at time `now`; the count is not floored. */
  function AfterDisconnect(u: UserRow, now: Time): UserRow {
    var n := u.activeConnections - 1;
    if n == 0 then u.(activeConnections := n, isOnline := false, lastOnline := Some(now))
    else u.(activeConnections := n)
  }

  /**
   * The row after `PrivateChatConsumer.user_disconnect` when the consumer's
   * own user object is `copy` and the row is `row`. The first `save()` writes
   * every field of `copy` back, with the count decremented in the database;
   * the reload and the offline stamp then follow as for `AfterDisconnect`.
   */
  function AfterDisconnectFrom(row: UserRow, copy: UserRow, now: Time): UserRow {
    AfterDisconnect(copy.(activeConnections := row.activeConnections), now)
  }

  /** The row after `OnlineStatusConsumer.user_disconnect`: the count is floored at 0. */
  function AfterDisconnectFloored(u: UserRow, now: Time): UserRow {
    var n := if u.activeConnections - 1 < 0 then 0 else u.activeConnections - 1;
    if n == 0 then u.(activeConnections := n, isOnline := false, lastOnline := Some(now))
    else u.(activeConnections := n)
  }

  /**
   * The presence flag agrees with the counter, and an online user has no
   * "last seen" stamp.
   */
  ghost predicate Consistent(u: UserRow) {
    && u.isOnline == (u.activeConnections > 0)
    && (u.isOnline ==> u.lastOnline == None)
  }

  /**
   * A connect raises the count by exactly one, keeps the row consistent, and
   * flips `is_online` exactly when the count was 0; on that flip `last_online`
   * is cleared.
   */
  lemma ConnectTransition(u: UserRow)
    requires Consistent(u)
    ensures AfterConnect(u).activeConnections == u.activeConnections + 1
    ensures AfterConnect(u).username == u.username
    ensures Consistent(AfterConnect(u))
    ensures AfterConnect(u).isOnline != u.isOnline <==> u.activeConnections == 0
    ensures u.activeConnections == 0 ==> AfterConnect(u).isOnline && AfterConnect(u).lastOnline == None
  {
  }

  /**
   * A disconnect lowers the count by exactly one, keeps the row consistent,
   * and flips `is_online` exactly when the count was 1; on that flip
   * `last_online` is stamped with the current time.
   */
  lemma DisconnectTransition(u: UserRow, now: Time)
    requires Consistent(u)
    ensures AfterDisconnect(u, now).activeConnections == u.activeConnections - 1
    ensures AfterDisconnect(u, now).username == u.username
    ensures Consistent(AfterDisconnect(u, now))
    ensures AfterDisconnect(u, now).isOnline != u.isOnline <==> u.activeConnections == 1
    ensures u.activeConnections == 1 ==> !AfterDisconnect(u, now).isOnline && AfterDisconnect(u, now).lastOnline == Some(now)
  {
  }

  /**
   * The floored disconnect never lets the count go below 0, keeps the row
   * consistent and flips exactly when the count was 1. Whenever the count
   * ends at 0 it stamps `last_online`, at 0 again although the user was
   * already offline.
   */
  lemma FlooredDisconnectTransition(u: UserRow, now: Time)
    requires Consistent(u) && u.activeConnections >= 0
    ensures AfterDisconnectFloored(u, now).activeConnections == if u.activeConnections == 0 then 0 else u.activeConnections - 1
    ensures Consistent(AfterDisconnectFloored(u, now))
    ensures AfterDisconnectFloored(u, now).isOnline != u.isOnline <==> u.activeConnections == 1
    ensures u.activeConnections <= 1 ==> AfterDisconnectFloored(u, now).lastOnline == Some(now)
  {
  }

  /**
   * From an idle row the two decrements part ways: the unfloored one goes to
   * -1 and leaves `last_online` alone, the floored one stays at 0. After the
   * unfloored one a connect no longer brings the user online.
   */
  lemma DecrementsDiverge(u: UserRow, now: Time)
    requires u.activeConnections == 0 && !u.isOnline
    ensures AfterDisconnect(u, now).activeConnections == -1
    ensures AfterDisconnect(u, now).lastOnline == u.lastOnline
    ensures AfterDisconnectFloored(u, now).activeConnections == 0
    ensures !AfterConnect(AfterDisconnect(u, now)).isOnline
    ensures AfterConnect(AfterDisconnectFloored(u, now)).isOnline
  {
  }

  /**
   * While the count stays at or above 1 from a connection's connect to its
   * disconnect, its cached copy still agrees with the row: the disconnect
   * writes the same row as one from the row itself, and the flag it
   * compares against is the row's own.
   */
  lemma DisconnectWhileConnected(row: UserRow, copy: UserRow, now: Time)
    requires Consistent(row) && Consistent(copy) && copy.username == row.username
    requires row.activeConnections >= 1 && copy.activeConnections >= 1
    ensures AfterDisconnectFrom(row, copy, now) == AfterDisconnect(row, now)
    ensures copy.isOnline == row.isOnline
  {
  }

  /**
   * The disconnect from the consumer's cached object `copy`, for every row
   * and every copy: the count is the row's less one. When that reaches 0 the
   * row goes offline with `last_online` stamped; otherwise it carries the
   * copy's flag and stamp, written back by `save()`. A flip is reported
   * exactly when the row's last connection closes while the copy says online.
   */
  lemma DisconnectFromTransition(row: UserRow, copy: UserRow, now: Time)
    ensures AfterDisconnectFrom(row, copy, now).activeConnections == row.activeConnections - 1
    ensures AfterDisconnectFrom(row, copy, now).username == copy.username
    ensures row.activeConnections == 1 ==>
      !AfterDisconnectFrom(row, copy, now).isOnline && AfterDisconnectFrom(row, copy, now).lastOnline == Some(now)
    ensures row.activeConnections != 1 ==>
      AfterDisconnectFrom(row, copy, now).isOnline == copy.isOnline && AfterDisconnectFrom(row, copy, now).lastOnline == copy.lastOnline
    ensures AfterDisconnectFrom(row, copy, now).isOnline != copy.isOnline <==> row.activeConnections == 1 && copy.isOnline
  {
  }

  /**
   * A copy cached while the count was 0 hides the next offline flip. From a
   * row at -1, a first connection caches the row at 0 and offline, and a
   * second brings the user online. When the first closes, the row goes
   * offline, but the flag it compares against was already offline, so no
   * flip is reported, although a disconnect judged on the row would report
   * one.
   */
  lemma StaleCopyHidesFlip(start: UserRow, now: Time)
    requires start.activeConnections == -1 && !start.isOnline
    ensures var copy := AfterConnect(start);
      var row := AfterConnect(copy);
      var after := AfterDisconnectFrom(row, copy, now);
      && !copy.isOnline && row.isOnline
      && after.activeConnections == 0 && !after.isOnline && after.lastOnline == Some(now)
      && after.isOnline == copy.isOnline
      && AfterDisconnect(row, now).isOnline != row.isOnline
  {
  }

  // ---------------------------------------------------------------------------
  // Runs of calls against one row, one call after another.
  // ---------------------------------------------------------------------------

  datatype PresenceCall = Open | Close(at: Time)

  function Apply(u: UserRow, c: PresenceCall): UserRow {
    match c
    case Open => AfterConnect(u)
    case Close(at) => AfterDisconnect(u, at)
  }

  /** The row after the calls, and how many of them reported a flip. */
  function Replay(u: UserRow, calls: seq<PresenceCall>): (UserRow, nat)
    decreases |calls|
  {
    if calls == [] then (u, 0)
    else
      var v := Apply(u, calls[0]);
      var (w, flips) := Replay(v, calls[1..]);
      (w, flips + if v.isOnline != u.isOnline then 1 else 0)
  }

  function Opens(n: nat): seq<PresenceCall> {
    seq(n, _ => Open)
  }

  function Closes(m: nat, at: Time): seq<PresenceCall> {
    seq(m, _ => Close(at))
  }

  /** Replaying a concatenation replays the parts in turn and adds their flips. */
  lemma {:induction false} ReplayAppend(u: UserRow, a: seq<PresenceCall>, b: seq<PresenceCall>)
    ensures Replay(u, a + b).0 == Replay(Replay(u, a).0, b).0
    ensures Replay(u, a + b).1 == Replay(u, a).1 + Replay(Replay(u, a).0, b).1
    decreases |a|
  {
    if a != [] {
      assert (a + b)[0] == a[0];
      assert (a + b)[1..] == a[1..] + b;
      ReplayAppend(Apply(u, a[0]), a[1..], b);
    } else {
      assert a + b == b;
    }
  }

  /** `n` connects from a consistent row with a non-negative count: one flip exactly when the count started at 0. */
  lemma {:induction false} ReplayOpens(u: UserRow, n: nat)
    requires Consistent(u) && u.activeConnections >= 0
    ensures Consistent(Replay(u, Opens(n)).0)
    ensures Replay(u, Opens(n)).0.activeConnections == u.activeConnections + n
    ensures Replay(u, Opens(n)).1 == if u.activeConnections == 0 && n > 0 then 1 else 0
    decreases n
  {
    if n > 0 {
      assert Opens(n)[0] == Open;
      assert Opens(n)[1..] == Opens(n - 1);
      ConnectTransition(u);
      ReplayOpens(AfterConnect(u), n - 1);
    }
  }

  /** `m` disconnects, no more than the count: one flip exactly when the count reaches 0. */
  lemma {:induction false} ReplayCloses(u: UserRow, m: nat, at: Time)
    requires Consistent(u) && m <= u.activeConnections
    ensures Consistent(Replay(u, Closes(m, at)).0)
    ensures Replay(u, Closes(m, at)).0.activeConnections == u.activeConnections - m
    ensures Replay(u, Closes(m, at)).1 == if m > 0 && m == u.activeConnections then 1 else 0
    decreases m
  {
    if m > 0 {
      assert Closes(m, at)[0] == Close(at);
      assert Closes(m, at)[1..] == Closes(m - 1, at);
      DisconnectTransition(u, at);
      ReplayCloses(AfterDisconnect(u, at), m - 1, at);
    }
  }

  /**
   * From an idle, offline row, `n` connects followed by `m <= n` disconnects
   * leave the count at `n - m`, online exactly when `n - m > 0`, with one
   * flip for going online and one more only if every connection closed.
   */
  lemma OpensThenCloses(u: UserRow, n: nat, m: nat, at: Time)
    requires u.activeConnections == 0 && !u.isOnline && m <= n
    ensures Replay(u, Opens(n) + Closes(m, at)).0.activeConnections == n - m
    ensures Replay(u, Opens(n) + Closes(m, at)).0.isOnline == (n - m > 0)
    ensures Replay(u, Opens(n) + Closes(m, at)).1 == (if n > 0 then 1 else 0) + (if n > 0 && m == n then 1 else 0)
  {
    ReplayAppend(u, Opens(n), Closes(m, at));
    ReplayOpens(u, n);
    ReplayCloses(Replay(u, Opens(n)).0, m, at);
  }

  /** Three connects then two disconnects: exactly one flip, and the user stays online with one connection. */
  lemma ThreeOpensTwoCloses(u: UserRow, at: Time)
    requires u.activeConnections == 0 && !u.isOnline
    ensures Replay(u, Opens(3) + Closes(2, at)).1 == 1
    ensures Replay(u, Opens(3) + Closes(2, at)).0.activeConnections == 1
    ensures Replay(u, Opens(3) + Closes(2, at)).0.isOnline
  {
    OpensThenCloses(u, 3, 2, at);
  }
}
