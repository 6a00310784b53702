/** The notification routes over the notifications table: marking one or
    all of a user's notifications read, deleting one or all of them, and
    the per-user counts. A user only ever sees or touches their own rows;
    someone else's row behaves as if it did not exist. */
module NotificationRoutes {

  import opened Wrappers
  import opened Strings
  import opened Models

  /** A row of the table: its id, the notification, and whether and when it
      was read. */
  datatype Entry = Entry(id: int, note: Notification, isRead: bool, readAt: Option<int>)

  datatype NotificationError = NotificationNotFound

  predicate OwnedBy(e: Entry, userId: nat)
  {
    e.note.userId == userId
  }

  /** The user's rows, in table order. */
  function Owned(entries: seq<Entry>, userId: nat): (mine: seq<Entry>)
    ensures |mine| <= |entries|
  {
    if |entries| == 0 then []
    else
      var last := entries[|entries| - 1];
      Owned(entries[..|entries| - 1], userId) + (if OwnedBy(last, userId) then [last] else [])
  }

  /** The user's rows are exactly the rows of the table the user owns. */
  lemma {:induction false} OwnedMembers(entries: seq<Entry>, userId: nat)
    ensures forall e :: e in Owned(entries, userId) <==> e in entries && OwnedBy(e, userId)
  {
    if |entries| > 0 {
      var n := |entries| - 1;
      OwnedMembers(entries[..n], userId);
      assert entries == entries[..n] + [entries[n]];
    }
  }

  lemma OwnedSingle(e: Entry, userId: nat)
    ensures Owned([e], userId) == if OwnedBy(e, userId) then [e] else []
  {
    assert [e][..0] == [];
  }

  /** How many of the user's rows are unread. */
  function UnreadOf(entries: seq<Entry>, userId: nat): nat
  {
    if |entries| == 0 then 0
    else
      var last := entries[|entries| - 1];
      UnreadOf(entries[..|entries| - 1], userId) + (if OwnedBy(last, userId) && !last.isRead then 1 else 0)
  }

  /** How many of the user's rows are read. */
  function ReadOf(entries: seq<Entry>, userId: nat): nat
  {
    if |entries| == 0 then 0
    else
      var last := entries[|entries| - 1];
      ReadOf(entries[..|entries| - 1], userId) + (if OwnedBy(last, userId) && last.isRead then 1 else 0)
  }

  /** Every row of the user is either read or unread. */
  lemma {:induction false} ReadPlusUnread(entries: seq<Entry>, userId: nat)
    ensures ReadOf(entries, userId) + UnreadOf(entries, userId) == |Owned(entries, userId)|
  {
    if |entries| > 0 {
      ReadPlusUnread(entries[..|entries| - 1], userId);
    }
  }

  /** The user has no unread row exactly when the count is zero. */
  lemma {:induction false} NoUnread(entries: seq<Entry>, userId: nat)
    ensures UnreadOf(entries, userId) == 0 <==>
            forall k :: 0 <= k < |entries| && OwnedBy(entries[k], userId) ==> entries[k].isRead
  {
    if |entries| > 0 {
      var n := |entries| - 1;
      NoUnread(entries[..n], userId);
      assert forall k :: 0 <= k < n ==> entries[..n][k] == entries[k];
    }
  }

  /** The query `filter(id, user_id).first()`: the first row with the id
      that belongs to the user. */
  function FindOwned(entries: seq<Entry>, id: int, userId: nat): (r: Option<nat>)
    ensures r.Some? ==> r.value < |entries| && entries[r.value].id == id && OwnedBy(entries[r.value], userId)
    ensures r.Some? ==> forall k :: 0 <= k < r.value ==> !(entries[k].id == id && OwnedBy(entries[k], userId))
    ensures r.None? ==> forall k :: 0 <= k < |entries| ==> !(entries[k].id == id && OwnedBy(entries[k], userId))
  {
    if |entries| == 0 then None
    else if entries[0].id == id && OwnedBy(entries[0], userId) then Some(0)
    else
      match FindOwned(entries[1..], id, userId)
      case None => None
      case Some(k) => Some(k + 1)
  }

  /** A row marked read now. */
  function MarkedRead(e: Entry, now: int): Entry
  {
    e.(isRead := true, readAt := Some(now))
  }

  // ---------------------------------------------------------------------
  // mark_notification_read

  /** What marking one row does: whether the row was already read, and the
      table after. */
  datatype Marked = Marked(wasRead: bool, entries: seq<Entry>)

  function MarkOne(entries: seq<Entry>, id: int, userId: nat, now: int): Result<Marked, NotificationError>
  {
    match FindOwned(entries, id, userId)
    case None => Err(NotificationNotFound)
    case Some(i) =>
      if entries[i].isRead then Ok(Marked(true, entries))
      else Ok(Marked(false, entries[i := MarkedRead(entries[i], now)]))
  }

  /** Marking a row the user does not own, or that does not exist, is
      refused and changes nothing; marking the user's row reads it and
      leaves every other row as it was; an already read row keeps the time
      it was first read. */
  lemma MarkOneEffect(entries: seq<Entry>, id: int, userId: nat, now: int)
    ensures MarkOne(entries, id, userId, now).Err? <==>
            forall k :: 0 <= k < |entries| ==> !(entries[k].id == id && OwnedBy(entries[k], userId))
    ensures var r := MarkOne(entries, id, userId, now);
            r.Ok? ==>
              var i := FindOwned(entries, id, userId).value;
              |r.value.entries| == |entries| &&
              r.value.entries[i].isRead && r.value.entries[i].note == entries[i].note &&
              (r.value.wasRead <==> entries[i].isRead) &&
              (entries[i].isRead ==> r.value.entries == entries) &&
              (forall k :: 0 <= k < |entries| && k != i ==> r.value.entries[k] == entries[k])
  {
  }

  /** Marking the same row again reports it as already read and changes
      nothing. */
  lemma {:induction false} MarkOneIdempotent(entries: seq<Entry>, id: int, userId: nat, now: int, later: int)
    requires MarkOne(entries, id, userId, now).Ok?
    ensures var once := MarkOne(entries, id, userId, now).value.entries;
            MarkOne(once, id, userId, later) == Ok(Marked(true, once))
  {
    var i := FindOwned(entries, id, userId).value;
    var once := MarkOne(entries, id, userId, now).value.entries;
    FindOwnedAfterUpdate(entries, id, userId, i, once[i]);
  }

  /** Changing a row without changing its id or owner leaves the lookup
      where it was. */
  lemma {:induction false} FindOwnedAfterUpdate(entries: seq<Entry>, id: int, userId: nat, i: nat, e: Entry)
    requires i < |entries| && e.id == entries[i].id && e.note.userId == entries[i].note.userId
    ensures FindOwned(entries[i := e], id, userId) == FindOwned(entries, id, userId)
  {
    var after := FindOwned(entries[i := e], id, userId);
    var before := FindOwned(entries, id, userId);
    if after.Some? {
      assert entries[after.value].id == id && OwnedBy(entries[after.value], userId);
    }
    if before.Some? {
      assert entries[i := e][before.value].id == id && OwnedBy(entries[i := e][before.value], userId);
    }
  }

  // ---------------------------------------------------------------------
  // mark_all_notifications_read

  /** The table with every unread row of the user read now. */
  function MarkAll(entries: seq<Entry>, userId: nat, now: int): (after: seq<Entry>)
    ensures |after| == |entries|
    ensures forall k :: 0 <= k < |entries| ==>
      after[k] == (if OwnedBy(entries[k], userId) && !entries[k].isRead then MarkedRead(entries[k], now) else entries[k])
  {
    seq(|entries|, k requires 0 <= k < |entries| =>
      if OwnedBy(entries[k], userId) && !entries[k].isRead then MarkedRead(entries[k], now) else entries[k])
  }

  /** After marking all, the user has nothing unread; other users' rows and
      the user's rows that were read are untouched; and marking all again
      changes nothing. */
  lemma MarkAllEffect(entries: seq<Entry>, userId: nat, now: int, later: int)
    ensures UnreadOf(MarkAll(entries, userId, now), userId) == 0
    ensures forall k :: 0 <= k < |entries| && (!OwnedBy(entries[k], userId) || entries[k].isRead) ==>
      MarkAll(entries, userId, now)[k] == entries[k]
    ensures MarkAll(MarkAll(entries, userId, now), userId, later) == MarkAll(entries, userId, now)
    ensures UnreadOf(entries, userId) == 0 ==> MarkAll(entries, userId, now) == entries
  {
    NoUnread(MarkAll(entries, userId, now), userId);
    NoUnread(entries, userId);
  }

  /** Marking all keeps the number of the user's rows and of everyone
      else's unread rows. */
  lemma {:induction false} MarkAllKeepsOthers(entries: seq<Entry>, userId: nat, other: nat, now: int)
    requires other != userId
    ensures UnreadOf(MarkAll(entries, userId, now), other) == UnreadOf(entries, other)
    ensures |Owned(MarkAll(entries, userId, now), userId)| == |Owned(entries, userId)|
  {
    if |entries| > 0 {
      var n := |entries| - 1;
      MarkAllKeepsOthers(entries[..n], userId, other, now);
      assert MarkAll(entries, userId, now)[..n] == MarkAll(entries[..n], userId, now);
    }
  }

  // ---------------------------------------------------------------------
  // delete_notification and clear_all_notifications

  /** The table without the user's row of that id. */
  function DeleteOne(entries: seq<Entry>, id: int, userId: nat): (r: Result<seq<Entry>, NotificationError>)
    ensures r.Err? <==> FindOwned(entries, id, userId).None?
    ensures r.Ok? ==>
      var i := FindOwned(entries, id, userId).value;
      r.value == entries[..i] + entries[i + 1..] && |r.value| == |entries| - 1
  {
    match FindOwned(entries, id, userId)
    case None => Err(NotificationNotFound)
    case Some(i) => Ok(entries[..i] + entries[i + 1..])
  }

  predicate DistinctIds(entries: seq<Entry>)
  {
    forall i, j :: 0 <= i < j < |entries| ==> entries[i].id != entries[j].id
  }

  /** With distinct ids a deleted row cannot be found again, so a second
      deletion is refused; other users' rows all stay. */
  lemma DeleteOneEffect(entries: seq<Entry>, id: int, userId: nat, other: nat)
    requires DistinctIds(entries)
    requires DeleteOne(entries, id, userId).Ok?
    ensures DeleteOne(DeleteOne(entries, id, userId).value, id, userId).Err?
    ensures other != userId ==> Owned(DeleteOne(entries, id, userId).value, other) == Owned(entries, other)
  {
    var i := FindOwned(entries, id, userId).value;
    var after := DeleteOne(entries, id, userId).value;
    forall k | 0 <= k < |after|
      ensures !(after[k].id == id && OwnedBy(after[k], userId))
    {
      if k < i {
        assert after[k] == entries[k];
      } else {
        assert after[k] == entries[k + 1];
      }
    }
    if other != userId {
      OwnedSplice(entries, i, other);
    }
  }

  /** Removing a row of someone else keeps the user's rows. */
  lemma {:induction false} OwnedSplice(entries: seq<Entry>, i: nat, userId: nat)
    requires i < |entries| && !OwnedBy(entries[i], userId)
    ensures Owned(entries[..i] + entries[i + 1..], userId) == Owned(entries, userId)
  {
    var front, x, back := entries[..i], entries[i], entries[i + 1..];
    assert Owned([x] + back, userId) == Owned(back, userId) by {
      OwnedAppend([x], back, userId);
      OwnedSingle(x, userId);
      assert [] + Owned(back, userId) == Owned(back, userId);
    }
    assert Owned(entries, userId) == Owned(front, userId) + Owned(back, userId) by {
      assert entries == front + ([x] + back);
      OwnedAppend(front, [x] + back, userId);
    }
    OwnedAppend(front, back, userId);
  }

  lemma {:induction false} OwnedAppend(a: seq<Entry>, b: seq<Entry>, userId: nat)
    ensures Owned(a + b, userId) == Owned(a, userId) + Owned(b, userId)
    decreases |b|
  {
    if |b| > 0 {
      var n := |b| - 1;
      OwnedAppend(a, b[..n], userId);
      assert (a + b)[..|a + b| - 1] == a + b[..n];
    } else {
      assert a + b == a;
    }
  }

  /** The table without any row of the user. */
  function Cleared(entries: seq<Entry>, userId: nat): (kept: seq<Entry>)
    ensures |kept| <= |entries|
  {
    if |entries| == 0 then []
    else
      var last := entries[|entries| - 1];
      Cleared(entries[..|entries| - 1], userId) + (if OwnedBy(last, userId) then [] else [last])
  }

  /** Clearing removes exactly the user's rows, as many as the count the
      route reports, and keeps every other user's rows in order. */
  lemma {:induction false} ClearedEffect(entries: seq<Entry>, userId: nat, other: nat)
    ensures Owned(Cleared(entries, userId), userId) == []
    ensures |Cleared(entries, userId)| + |Owned(entries, userId)| == |entries|
    ensures other != userId ==> Owned(Cleared(entries, userId), other) == Owned(entries, other)
  {
    if |entries| > 0 {
      var n := |entries| - 1;
      var last := entries[n];
      var tail := if OwnedBy(last, userId) then [] else [last];
      ClearedEffect(entries[..n], userId, other);
      OwnedAppend(Cleared(entries[..n], userId), tail, userId);
      OwnedAppend(Cleared(entries[..n], userId), tail, other);
      OwnedSingle(last, userId);
      OwnedSingle(last, other);
    }
  }

  // ---------------------------------------------------------------------
  // get_notification_stats

  function CountKind(mine: seq<Entry>, kind: NotificationType): nat
  {
    if |mine| == 0 then 0
    else CountKind(mine[..|mine| - 1], kind) + (if mine[|mine| - 1].note.kind == kind then 1 else 0)
  }

  datatype NotificationStats = NotificationStats(total: nat, unread: nat, read: int, byType: map<NotificationType, nat>)

  /** The user's totals, and one count per notification type the user has. */
  function Stats(entries: seq<Entry>, userId: nat): (s: NotificationStats)
    ensures s.read == ReadOf(entries, userId) && s.unread == UnreadOf(entries, userId)
    ensures s.total == |Owned(entries, userId)|
    ensures forall t :: t in s.byType <==> exists e :: e in Owned(entries, userId) && e.note.kind == t
    ensures forall t :: t in s.byType ==> s.byType[t] == CountKind(Owned(entries, userId), t)
  {
    var mine := Owned(entries, userId);
    ReadPlusUnread(entries, userId);
    var kinds := set e | e in mine :: e.note.kind;
    NotificationStats(|mine|, UnreadOf(entries, userId), |mine| - UnreadOf(entries, userId),
                      map t | t in kinds :: CountKind(mine, t))
  }

  // ---------------------------------------------------------------------
  // The path dispatch of the two DELETE routes

  /** What a DELETE on `/<segment>` reaches. */
  datatype DeleteRoute = DeleteById(id: int) | ClearAll

  /** The routing result: a handler, or a 422 from the path parameter's
      integer validation. */
  datatype Dispatch = Routed(route: DeleteRoute) | Unprocessable

  /** The path parameter read as an integer: an optional sign and digits. */
  function PathInt(segment: string): (r: Option<int>)
    ensures r.Some? ==> |segment| > 0
    ensures AllDigits(segment) && |segment| > 0 ==> r == Some(DecimalValue(segment) as int)
  {
    if |segment| > 0 && AllDigits(segment) then Some(DecimalValue(segment) as int)
    else if |segment| > 1 && segment[0] == '-' && AllDigits(segment[1..]) then Some(-(DecimalValue(segment[1..]) as int))
    else if |segment| > 1 && segment[0] == '+' && AllDigits(segment[1..]) then Some(DecimalValue(segment[1..]) as int)
    else None
  }

  /** The routes in the order they are declared: `/{notification_id}`
      first, which matches every one-segment path, so its integer check
      decides every request. */
  function DispatchDeleteAsWritten(segment: string): (d: Dispatch)
  {
    match PathInt(segment)
    case Some(id) => Routed(DeleteById(id))
    case None => Unprocessable
  }

  /** As declared, the clear-all handler is never reached: its own path is
      refused by the other route's integer check. */
  lemma ClearAllUnreachable(segment: string)
    ensures DispatchDeleteAsWritten(segment) != Routed(ClearAll)
    ensures DispatchDeleteAsWritten("clear-all") == Unprocessable
  {
    assert !AllDigits("clear-all") by { assert !IsDigit("clear-all"[0]); }
  }

  /** The literal route declared before the parameterised one. */
  function DispatchDelete(segment: string): (d: Dispatch)
    ensures segment == "clear-all" ==> d == Routed(ClearAll)
  {
    if segment == "clear-all" then Routed(ClearAll) else DispatchDeleteAsWritten(segment)
  }

  /** With the literal route first, clear-all is reached and every other
      path goes where it went before. */
  lemma DispatchDeleteAgrees(segment: string)
    ensures DispatchDelete(segment) == Routed(ClearAll) <==> segment == "clear-all"
    ensures segment != "clear-all" ==> DispatchDelete(segment) == DispatchDeleteAsWritten(segment)
  {
    ClearAllUnreachable(segment);
  }

  // ---------------------------------------------------------------------
  // The routes, changing the table in place

  class Inbox {
    var entries: seq<Entry>

    constructor (rows: seq<Entry>)
      ensures entries == rows
    {
      entries := rows;
    }

    /** `mark_notification_read`. */
    method MarkNotificationRead(id: int, userId: nat, now: int) returns (r: Result<bool, NotificationError>)
      modifies this
      ensures var step := MarkOne(old(entries), id, userId, now);
              (step.Err? ==> r == Err(step.error) && entries == old(entries)) &&
              (step.Ok? ==> r == Ok(step.value.wasRead) && entries == step.value.entries)
    {
      var found := FindOwned(entries, id, userId);
      if found.None? {
        return Err(NotificationNotFound);
      }
      var i := found.value;
      if entries[i].isRead {
        return Ok(true);
      }
      entries := entries[i := entries[i].(isRead := true)];
      entries := entries[i := entries[i].(readAt := Some(now))];
      r := Ok(false);
    }

    /** `mark_all_notifications_read`: the unread count first; with none
        there is nothing to change, otherwise every unread row of the user
        is read, row by row. */
    method MarkAllNotificationsRead(userId: nat, now: int) returns (count: nat)
      modifies this
      ensures count == UnreadOf(old(entries), userId)
      ensures entries == MarkAll(old(entries), userId, now)
    {
      count := UnreadOf(entries, userId);
      if count == 0 {
        MarkAllEffect(entries, userId, now, now);
        return;
      }
      ghost var start := entries;
      var k := 0;
      while k < |entries|
        invariant |entries| == |start| && 0 <= k <= |entries|
        invariant forall j :: 0 <= j < k ==> entries[j] == MarkAll(start, userId, now)[j]
        invariant forall j :: k <= j < |entries| ==> entries[j] == start[j]
      {
        if OwnedBy(entries[k], userId) && !entries[k].isRead {
          entries := entries[k := MarkedRead(entries[k], now)];
        }
        k := k + 1;
      }
    }

    /** `delete_notification`. */
    method DeleteNotification(id: int, userId: nat) returns (r: Result<(), NotificationError>)
      modifies this
      ensures var step := DeleteOne(old(entries), id, userId);
              (step.Err? ==> r == Err(step.error) && entries == old(entries)) &&
              (step.Ok? ==> r == Ok(()) && entries == step.value)
    {
      var found := FindOwned(entries, id, userId);
      if found.None? {
        return Err(NotificationNotFound);
      }
      var i := found.value;
      entries := entries[..i] + entries[i + 1..];
      r := Ok(());
    }

    /** `clear_all_notifications`: the count first; with none there is
        nothing to delete, otherwise the user's rows are removed. */
    method ClearAllNotifications(userId: nat) returns (count: nat)
      modifies this
      ensures count == |Owned(old(entries), userId)|
      ensures entries == Cleared(old(entries), userId)
    {
      count := |Owned(entries, userId)|;
      if count == 0 {
        ClearedNone(entries, userId);
        return;
      }
      var kept: seq<Entry> := [];
      var k := 0;
      while k < |entries|
        invariant 0 <= k <= |entries|
        invariant kept == Cleared(entries[..k], userId)
      {
        assert entries[..k + 1][..k] == entries[..k];
        if !OwnedBy(entries[k], userId) {
          kept := kept + [entries[k]];
        }
        k := k + 1;
      }
      assert entries[..k] == entries;
      entries := kept;
    }
  }

  /** Clearing a user without rows keeps the table. */
  lemma {:induction false} ClearedNone(entries: seq<Entry>, userId: nat)
    requires |Owned(entries, userId)| == 0
    ensures Cleared(entries, userId) == entries
  {
    if |entries| > 0 {
      var n := |entries| - 1;
      assert entries[n] in entries;
      assert |Owned(entries[..n], userId)| == 0;
      ClearedNone(entries[..n], userId);
      assert entries[..n] + [entries[n]] == entries;
    }
  }
}
