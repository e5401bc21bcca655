/** The notification bell and avatar menu of app/components/Header.tsx: the
    list of recent notifications, the unread badge, and the two pop-over flags.
    The query, the realtime channel and the update call are inputs; the
    database requests the handlers issue are returned as values. */
module Header {
  import opened Js
  import opened Types

  datatype Notification = Notification(id: string, content: string, createdAt: string, read: bool)

  /** `select('*').eq('user_id', userId).order('created_at', { ascending: false }).limit(limit)` */
  datatype Select = Select(userId: string, newestFirst: bool, limit: nat)

  /** `update({ read: true }).eq('user_id', userId).eq('read', false)` */
  datatype MarkAllRead = MarkAllRead(userId: string)

  /** How the fetch settles: Supabase's `{ data, error }`, or an exception. */
  datatype NotificationQuery =
    | Answered(data: Option<seq<Notification>>, error: Option<Error>)
    | Crashed(thrown: Error)

  const FetchLimit: nat := 5

  /** `ns.some(n => !n.read)` */
  function AnyUnread(ns: seq<Notification>): (r: bool)
    ensures r <==> exists i :: 0 <= i < |ns| && !ns[i].read
  {
    if ns == [] then false else !ns[0].read || AnyUnread(ns[1..])
  }

  /** `ns.map(n => ({ ...n, read: true }))` */
  function MarkedRead(ns: seq<Notification>): (r: seq<Notification>)
    ensures |r| == |ns|
    ensures forall i :: 0 <= i < |ns| ==>
      r[i].read && r[i].id == ns[i].id && r[i].content == ns[i].content && r[i].createdAt == ns[i].createdAt
  {
    if ns == [] then [] else [ns[0].(read := true)] + MarkedRead(ns[1..])
  }

  /** After marking, nothing is unread, and marking twice is marking once. */
  lemma {:induction false} MarkedReadSettles(ns: seq<Notification>)
    ensures !AnyUnread(MarkedRead(ns))
    ensures MarkedRead(MarkedRead(ns)) == MarkedRead(ns)
  {
    if ns != [] {
      MarkedReadSettles(ns[1..]);
      assert MarkedRead(ns)[1..] == MarkedRead(ns[1..]);
    }
  }

  /** A list that is already all read is left as it is. */
  lemma {:induction false} MarkedReadOfAllRead(ns: seq<Notification>)
    requires !AnyUnread(ns)
    ensures MarkedRead(ns) == ns
  {
    if ns != [] {
      MarkedReadOfAllRead(ns[1..]);
    }
  }

  class HeaderState {
    const userId: string
    var showMenu: bool
    var showNotifications: bool
    var hasUnread: bool
    var notifications: seq<Notification>

    constructor (userId: string)
      ensures this.userId == userId
      ensures !showMenu && !showNotifications && !hasUnread && notifications == []
    {
      this.userId := userId;
      showMenu, showNotifications, hasUnread, notifications := false, false, false, [];
    }

    /** The realtime INSERT handler: the new row goes first and the badge lights up. */
    method OnRealtimeInsert(n: Notification)
      modifies this
      ensures hasUnread
      ensures notifications == [n] + old(notifications)
      ensures showMenu == old(showMenu) && showNotifications == old(showNotifications)
    {
      hasUnread := true;
      notifications := [n] + notifications;
    }

    /** `fetchNotifications`: the query it sends, and the list replaced by the
        data with the badge set to whether any of it is unread. An error
        object, an exception or absent data leaves everything as it was. */
    method FetchNotifications(result: NotificationQuery) returns (query: Select)
      modifies this
      ensures query == Select(userId, true, FetchLimit)
      ensures result.Answered? && result.error.None? && result.data.Some? ==>
        notifications == result.data.value && hasUnread == AnyUnread(result.data.value)
      ensures !(result.Answered? && result.error.None? && result.data.Some?) ==>
        notifications == old(notifications) && hasUnread == old(hasUnread)
      ensures showMenu == old(showMenu) && showNotifications == old(showNotifications)
    {
      query := Select(userId, true, FetchLimit);
      if result.Answered? && result.error.None? && result.data.Some? {
        notifications := result.data.value;
        hasUnread := AnyUnread(result.data.value);
      }
    }

    /** `markAsRead` up to the update call: nothing unless the badge is lit;
        otherwise the badge goes out and the update is issued. */
    method BeginMarkAsRead() returns (update: Option<MarkAllRead>)
      modifies this
      ensures !old(hasUnread) ==> update.None? && hasUnread == old(hasUnread)
      ensures old(hasUnread) ==> update == Some(MarkAllRead(userId)) && !hasUnread
      ensures notifications == old(notifications)
      ensures showMenu == old(showMenu) && showNotifications == old(showNotifications)
    {
      if !hasUnread {
        return None;
      }
      hasUnread := false;
      update := Some(MarkAllRead(userId));
    }

    /** The rest of `markAsRead`: the local copy is marked read unless the
        update threw. The update's `{ error }` result is not consulted. */
    method CompleteMarkAsRead(threw: bool)
      modifies this
      ensures notifications == if threw then old(notifications) else MarkedRead(old(notifications))
      ensures hasUnread == old(hasUnread)
      ensures showMenu == old(showMenu) && showNotifications == old(showNotifications)
    {
      if !threw {
        notifications := MarkedRead(notifications);
      }
    }

    /** The whole `markAsRead`, with `threw` telling whether the update threw. */
    method MarkAsRead(threw: bool) returns (update: Option<MarkAllRead>)
      modifies this
      ensures !old(hasUnread) ==>
        update.None? && !hasUnread && notifications == old(notifications)
      ensures old(hasUnread) ==>
        && update == Some(MarkAllRead(userId))
        && !hasUnread
        && notifications == (if threw then old(notifications) else MarkedRead(old(notifications)))
      ensures showMenu == old(showMenu) && showNotifications == old(showNotifications)
    {
      update := BeginMarkAsRead();
      if update.Some? {
        CompleteMarkAsRead(threw);
      }
    }

    /** `handleBellClick`: the panel toggles, the menu closes, and only opening
        the panel marks the notifications read. */
    method HandleBellClick(threw: bool) returns (update: Option<MarkAllRead>)
      modifies this
      ensures showNotifications == !old(showNotifications) && !showMenu
      ensures old(showNotifications) ==>
        update.None? && hasUnread == old(hasUnread) && notifications == old(notifications)
      ensures !old(showNotifications) && !old(hasUnread) ==>
        update.None? && !hasUnread && notifications == old(notifications)
      ensures !old(showNotifications) && old(hasUnread) ==>
        && update == Some(MarkAllRead(userId))
        && !hasUnread
        && notifications == (if threw then old(notifications) else MarkedRead(old(notifications)))
    {
      var wasOpen := showNotifications;
      showNotifications := !wasOpen;
      showMenu := false;
      if !wasOpen {
        update := MarkAsRead(threw);
      } else {
        update := None;
      }
    }

    /** The avatar's click handler: the menu toggles and the panel closes. */
    method AvatarClick()
      modifies this
      ensures showMenu == !old(showMenu) && !showNotifications
      ensures hasUnread == old(hasUnread) && notifications == old(notifications)
    {
      showMenu := !showMenu;
      showNotifications := false;
    }
  }
}
