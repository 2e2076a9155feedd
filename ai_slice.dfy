/** The assistant's Redux slice: the notification list with its unread
    counter, three request sub-slices (insights, budget recommendations and
    the report) and the chat history. Every reducer assigns fields of its
    own sub-slice in place and leaves the rest of the state alone. */
module AiSlice {
  import opened Common

  /** An assistant notification as the server lists it. */
  datatype Notice = Notice(id: int, kind: string, message: string, priority: string, read: bool, timestamp: string)

  predicate IsUnread(n: Notice)
  {
    !n.read
  }

  /** `items.filter(n => !n.read).length`. */
  function UnreadCount(items: seq<Notice>): nat
  {
    |Filter(items, IsUnread)|
  }

  /** `items.find(n => n.id === id)`, as the index of the first notice with
      that id, or -1. */
  function FindNotice(items: seq<Notice>, id: int): (k: int)
    ensures -1 <= k < |items|
    ensures k >= 0 ==> items[k].id == id && forall j :: 0 <= j < k ==> items[j].id != id
    ensures k < 0 ==> forall j :: 0 <= j < |items| ==> items[j].id != id
  {
    if items == [] then -1
    else if items[0].id == id then 0
    else
      var k := FindNotice(items[1..], id);
      if k < 0 then -1 else k + 1
  }

  /** Marking an unread notice read lowers the unread count by exactly one. */
  lemma {:induction false} UnreadAfterMark(items: seq<Notice>, k: int)
    requires 0 <= k < |items| && !items[k].read
    ensures UnreadCount(items[k := items[k].(read := true)]) == UnreadCount(items) - 1
  {
    var s := items[..k];
    var rest := items[k + 1..];
    var marked := items[k].(read := true);
    assert items == s + [items[k]] + rest;
    assert items[k := marked] == s + [marked] + rest;
    FilterConcat(s + [items[k]], rest, IsUnread);
    FilterConcat(s + [marked], rest, IsUnread);
    FilterSnoc(s, items[k], IsUnread);
    FilterSnoc(s, marked, IsUnread);
  }

  /** The notifications sub-slice. */
  datatype Notifications = Notifications(items: seq<Notice>, unreadCount: int, loading: bool, error: Option<string>)

  /** The sub-slice of one request: the last payload, whether a call is in
      flight, and the last error message. */
  datatype Request = Request(data: Option<Json>, loading: bool, error: Option<string>)

  /** The three requests that share the same pending/fulfilled/rejected cases. */
  datatype Call = Insights | BudgetRecommendations | Report

  class AiState {
    var notifications: Notifications
    var insights: Request
    var budgetRecommendations: Request
    var report: Request
    var chatHistory: seq<Json>

    /** The counter agrees with the list. */
    predicate Valid()
      reads this
    {
      notifications.unreadCount == UnreadCount(notifications.items)
    }

    function RequestOf(c: Call): Request
      reads this
    {
      match c
      case Insights => insights
      case BudgetRecommendations => budgetRecommendations
      case Report => report
    }

    /** The initial state: nothing loaded, nothing in flight, no errors. */
    constructor ()
      ensures notifications == Notifications([], 0, false, None)
      ensures insights == Request(None, false, None)
      ensures budgetRecommendations == Request(None, false, None)
      ensures report == Request(None, false, None)
      ensures chatHistory == []
      ensures Valid()
    {
      notifications := Notifications([], 0, false, None);
      insights := Request(None, false, None);
      budgetRecommendations := Request(None, false, None);
      report := Request(None, false, None);
      chatHistory := [];
    }

    /** addChatMessage: the payload is pushed onto the history. */
    method AddChatMessage(message: Json)
      modifies this
      ensures chatHistory == old(chatHistory) + [message]
      ensures notifications == old(notifications)
      ensures insights == old(insights) && budgetRecommendations == old(budgetRecommendations) && report == old(report)
    {
      chatHistory := chatHistory + [message];
    }

    /** clearChatHistory. */
    method ClearChatHistory()
      modifies this
      ensures chatHistory == []
      ensures notifications == old(notifications)
      ensures insights == old(insights) && budgetRecommendations == old(budgetRecommendations) && report == old(report)
    {
      chatHistory := [];
    }

    /** fetchAINotifications.pending. */
    method NotificationsPending()
      modifies this
      ensures notifications == old(notifications).(loading := true, error := None)
      ensures old(Valid()) ==> Valid()
      ensures insights == old(insights) && budgetRecommendations == old(budgetRecommendations) && report == old(report)
      ensures chatHistory == old(chatHistory)
    {
      notifications := notifications.(loading := true, error := None);
    }

    /** fetchAINotifications.fulfilled: the list is replaced and the counter
      recomputed from it, which makes the state valid whatever it was. */
    method NotificationsFulfilled(items: seq<Notice>)
      modifies this
      ensures notifications == old(notifications).(loading := false, items := items, unreadCount := UnreadCount(items))
      ensures Valid()
      ensures insights == old(insights) && budgetRecommendations == old(budgetRecommendations) && report == old(report)
      ensures chatHistory == old(chatHistory)
    {
      notifications := notifications.(loading := false);
      notifications := notifications.(items := items);
      notifications := notifications.(unreadCount := |Filter(items, IsUnread)|);
    }

    /** fetchAINotifications.rejected: `error` takes the error's message,
      which may be undefined. */
    method NotificationsRejected(message: Option<string>)
      modifies this
      ensures notifications == old(notifications).(loading := false, error := message)
      ensures old(Valid()) ==> Valid()
      ensures insights == old(insights) && budgetRecommendations == old(budgetRecommendations) && report == old(report)
      ensures chatHistory == old(chatHistory)
    {
      notifications := notifications.(loading := false, error := message);
    }

    /** markNotificationRead.fulfilled: the first notice with the id, when it
      is unread, becomes read and the counter drops by one; otherwise
      nothing changes. */
    method MarkNotificationRead(id: int)
      modifies this
      ensures var items := old(notifications).items;
        var k := FindNotice(items, id);
        if k >= 0 && !items[k].read then
          notifications == old(notifications).(items := items[k := items[k].(read := true)],
                                               unreadCount := old(notifications).unreadCount - 1)
        else notifications == old(notifications)
      ensures old(Valid()) ==> Valid()
      ensures insights == old(insights) && budgetRecommendations == old(budgetRecommendations) && report == old(report)
      ensures chatHistory == old(chatHistory)
    {
      var k := FindNotice(notifications.items, id);
      if k >= 0 && !notifications.items[k].read {
        ghost var before := notifications.items;
        var marked := notifications.items[k].(read := true);
        notifications := notifications.(items := notifications.items[k := marked]);
        notifications := notifications.(unreadCount := notifications.unreadCount - 1);
        UnreadAfterMark(before, k);
      }
    }

    /** The pending case of insights, budget recommendations or the report. */
    method RequestPending(c: Call)
      modifies this
      ensures RequestOf(c) == old(RequestOf(c)).(loading := true, error := None)
      ensures forall d :: d != c ==> RequestOf(d) == old(RequestOf(d))
      ensures notifications == old(notifications) && chatHistory == old(chatHistory)
    {
      match c
      case Insights => insights := insights.(loading := true, error := None);
      case BudgetRecommendations => budgetRecommendations := budgetRecommendations.(loading := true, error := None);
      case Report => report := report.(loading := true, error := None);
    }

    /** The fulfilled case: `data` takes the payload. */
    method RequestFulfilled(c: Call, payload: Json)
      modifies this
      ensures RequestOf(c) == old(RequestOf(c)).(loading := false, data := Some(payload))
      ensures forall d :: d != c ==> RequestOf(d) == old(RequestOf(d))
      ensures notifications == old(notifications) && chatHistory == old(chatHistory)
    {
      match c
      case Insights => insights := insights.(loading := false, data := Some(payload));
      case BudgetRecommendations => budgetRecommendations := budgetRecommendations.(loading := false, data := Some(payload));
      case Report => report := report.(loading := false, data := Some(payload));
    }

    /** The rejected case: `error` takes the error's message. */
    method RequestRejected(c: Call, message: Option<string>)
      modifies this
      ensures RequestOf(c) == old(RequestOf(c)).(loading := false, error := message)
      ensures forall d :: d != c ==> RequestOf(d) == old(RequestOf(d))
      ensures notifications == old(notifications) && chatHistory == old(chatHistory)
    {
      match c
      case Insights => insights := insights.(loading := false, error := message);
      case BudgetRecommendations => budgetRecommendations := budgetRecommendations.(loading := false, error := message);
      case Report => report := report.(loading := false, error := message);
    }
  }
}
