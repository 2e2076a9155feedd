/** The notification bell: the list of assistant notifications, whether the
    panel is open and the unread dot. Each handler replaces the component
    state with values computed from the list it saw when it ran. */
module NotificationBell {
  import opened Common
  import opened AiSlice

  const HIGH: string := "high"
  const GRAY: string := "bg-gray-100 text-gray-600"

  /** `notification.id === id ? { ...notification, read: true } : notification`,
      over the whole list. */
  function MarkRead(items: seq<Notice>, id: int): (r: seq<Notice>)
    ensures |r| == |items|
    ensures forall i :: 0 <= i < |items| ==> r[i] == if items[i].id == id then items[i].(read := true) else items[i]
  {
    seq(|items|, i requires 0 <= i < |items| => if items[i].id == id then items[i].(read := true) else items[i])
  }

  function Other(id: int): Notice -> bool
  {
    (n: Notice) => n.id != id
  }

  /** `items.filter(n => n.id !== id)`. */
  function Dismiss(items: seq<Notice>, id: int): seq<Notice>
  {
    Filter(items, Other(id))
  }

  function UnreadOther(id: int): Notice -> bool
  {
    (n: Notice) => !n.read && n.id != id
  }

  /** `items.filter(n => !n.read && n.id !== id).length > 0`: the value the
      unread dot takes after a mark-read or a dismissal, computed on the
      list as it was before the change. */
  predicate AnyUnreadBesides(items: seq<Notice>, id: int)
  {
    |Filter(items, UnreadOther(id))| > 0
  }

  function Critical(n: Notice): bool
  {
    n.priority == HIGH && !n.read
  }

  /** `criticalAlerts[0]` of `items.filter(n => n.priority === 'high' && !n.read)`,
      when there is one. */
  function FirstCritical(items: seq<Notice>): (r: Option<Notice>)
    ensures r.Some? <==> exists i :: 0 <= i < |items| && Critical(items[i])
    ensures r.Some? ==> r.value in items && Critical(r.value)
  {
    var alerts := Filter(items, Critical);
    if |alerts| > 0 then Some(alerts[0]) else None
  }

  /** The dot set after a mark-read tells the truth about the new list: it
      is on exactly when the updated list still has an unread notice. */
  lemma MarkReadDot(items: seq<Notice>, id: int)
    ensures AnyUnreadBesides(items, id) <==> exists i :: 0 <= i < |items| && !MarkRead(items, id)[i].read
  {
    var r := MarkRead(items, id);
    if AnyUnreadBesides(items, id) {
      var n := Filter(items, UnreadOther(id))[0];
      var i :| 0 <= i < |items| && items[i] == n;
      assert !r[i].read;
    }
    if exists i :: 0 <= i < |items| && !r[i].read {
      var i :| 0 <= i < |items| && !r[i].read;
      assert UnreadOther(id)(items[i]);
      assert items[i] in Filter(items, UnreadOther(id));
    }
  }

  /** Dismissing keeps exactly the notices with another id, and a list
      without that id is kept as it is. */
  lemma DismissKeepsOthers(items: seq<Notice>, id: int)
    ensures forall n :: n in Dismiss(items, id) <==> n in items && n.id != id
    ensures (forall i :: 0 <= i < |items| ==> items[i].id != id) ==> Dismiss(items, id) == items
  {
    forall n | n in items && n.id != id
      ensures n in Dismiss(items, id)
    {
      var i :| 0 <= i < |items| && items[i] == n;
      assert Other(id)(items[i]);
    }
    if forall i :: 0 <= i < |items| ==> items[i].id != id {
      FilterKeepsAll(items, Other(id));
    }
  }

  /** The dot set after a dismissal is on exactly when the remaining list
      has an unread notice. */
  lemma DismissDot(items: seq<Notice>, id: int)
    ensures AnyUnreadBesides(items, id) <==> exists n :: n in Dismiss(items, id) && !n.read
  {
    var kept := Dismiss(items, id);
    if AnyUnreadBesides(items, id) {
      var n := Filter(items, UnreadOther(id))[0];
      var i :| 0 <= i < |items| && items[i] == n;
      assert Other(id)(items[i]);
      assert n in kept;
    }
    if exists n :: n in kept && !n.read {
      var n :| n in kept && !n.read;
      var j :| 0 <= j < |kept| && kept[j] == n;
      var i :| 0 <= i < |items| && items[i] == n;
      assert UnreadOther(id)(items[i]);
      assert items[i] in Filter(items, UnreadOther(id));
    }
  }

  /** getNotificationColor: a fixed pair of classes per notification type,
      gray for any other type. */
  function NotificationColor(kind: string): (c: string)
    ensures kind == "alert" <==> c == "bg-red-100 text-red-600"
    ensures kind == "warning" <==> c == "bg-amber-100 text-amber-600"
    ensures kind == "tip" <==> c == "bg-green-100 text-green-600"
    ensures kind == "info" <==> c == "bg-blue-100 text-blue-600"
    ensures kind !in ["alert", "warning", "tip", "info"] <==> c == GRAY
  {
    match kind
    case "alert" => "bg-red-100 text-red-600"
    case "warning" => "bg-amber-100 text-amber-600"
    case "tip" => "bg-green-100 text-green-600"
    case "info" => "bg-blue-100 text-blue-600"
    case _ => GRAY
  }

  class Bell {
    var notifications: seq<Notice>
    var showNotifications: bool
    var hasUnread: bool

    constructor ()
      ensures notifications == [] && !showNotifications && !hasUnread
    {
      notifications := [];
      showNotifications := false;
      hasUnread := false;
    }

    /** fetchNotifications with the server's list, or None when the request
      failed (the error is only logged). The mount effect and its polling
      interval both call the function of the first render, whose
      `notifications` is the initial empty list: so every reply with a
      notice turns the dot on and asks for a browser alert about the first
      critical notice, and only an empty reply leaves the dot alone. */
    method FetchNotifications(reply: Option<seq<Notice>>) returns (alert: Option<Notice>)
      modifies this
      ensures reply.None? ==> notifications == old(notifications) && hasUnread == old(hasUnread) && alert.None?
      ensures reply.Some? ==> notifications == reply.value
      ensures reply.Some? && |reply.value| > 0 ==> hasUnread && alert == FirstCritical(reply.value)
      ensures reply.Some? && |reply.value| == 0 ==> hasUnread == old(hasUnread) && alert.None?
      ensures reply.Some? && reply.value == old(notifications) && |reply.value| > 0 ==> hasUnread
      ensures showNotifications == old(showNotifications)
    {
      alert := None;
      if reply.Some? {
        var incoming := reply.value;
        var seenAtMount: seq<Notice> := [];
        if |incoming| > |seenAtMount| {
          hasUnread := true;
          var criticalAlerts := Filter(incoming, Critical);
          if |criticalAlerts| > 0 {
            alert := Some(criticalAlerts[0]);
          }
        }
        notifications := incoming;
      }
    }

    /** fetchNotifications as its comment means it: a reply longer than the
      list shown turns the dot on and asks for an alert about the first
      critical notice, and a reply no longer than it leaves the dot alone,
      so a poll that brings nothing new never relights a cleared dot. */
    method FetchNewNotifications(reply: Option<seq<Notice>>) returns (alert: Option<Notice>)
      modifies this
      ensures reply.None? ==> notifications == old(notifications) && hasUnread == old(hasUnread) && alert.None?
      ensures reply.Some? ==> notifications == reply.value
      ensures reply.Some? && |reply.value| > |old(notifications)| ==>
        hasUnread && alert == FirstCritical(reply.value)
      ensures reply.Some? && |reply.value| <= |old(notifications)| ==>
        hasUnread == old(hasUnread) && alert.None?
      ensures reply.Some? && reply.value == old(notifications) ==> hasUnread == old(hasUnread) && alert.None?
      ensures showNotifications == old(showNotifications)
    {
      alert := None;
      if reply.Some? {
        var incoming := reply.value;
        if |incoming| > |notifications| {
          hasUnread := true;
          var criticalAlerts := Filter(incoming, Critical);
          if |criticalAlerts| > 0 {
            alert := Some(criticalAlerts[0]);
          }
        }
        notifications := incoming;
      }
    }

    /** markAsRead: once the server has accepted (`accepted`), the notice is
      marked read in the list and the dot is recomputed from the list as it
      was; a refused call changes nothing. */
    method MarkAsRead(id: int, accepted: bool)
      modifies this
      ensures accepted ==> notifications == MarkRead(old(notifications), id)
      ensures accepted ==> hasUnread == AnyUnreadBesides(old(notifications), id)
      ensures !accepted ==> notifications == old(notifications) && hasUnread == old(hasUnread)
      ensures accepted ==> (hasUnread <==> exists i :: 0 <= i < |notifications| && !notifications[i].read)
      ensures showNotifications == old(showNotifications)
    {
      if accepted {
        var before := notifications;
        notifications := MarkRead(notifications, id);
        hasUnread := |Filter(before, UnreadOther(id))| > 0;
        MarkReadDot(before, id);
      }
    }

    /** dismissNotification: the notices with that id leave the list and the
      dot is recomputed. */
    method DismissNotification(id: int)
      modifies this
      ensures notifications == Dismiss(old(notifications), id)
      ensures hasUnread == AnyUnreadBesides(old(notifications), id)
      ensures hasUnread <==> exists n :: n in notifications && !n.read
      ensures showNotifications == old(showNotifications)
    {
      var before := notifications;
      notifications := Filter(notifications, Other(id));
      hasUnread := |Filter(before, UnreadOther(id))| > 0;
      DismissDot(before, id);
    }

    /** A click on the bell opens or closes the panel and clears the dot. */
    method ToggleBell()
      modifies this
      ensures showNotifications == !old(showNotifications)
      ensures !hasUnread
      ensures notifications == old(notifications)
    {
      showNotifications := !showNotifications;
      hasUnread := false;
    }
  }
}
