/**
 * The notifications inbox: the unread counter, the three tabs ("All",
 * "Requests", "Activity") with the optional unread-only switch, and the
 * type pill on each card.
 */
module Notifications {
  import opened Filtering

  datatype NotifType = MatchConfirm | Challenge | Checkin | System | Message

  /** A notification. An absent `unread` flag reads as false. */
  datatype Notif = Notif(
    id: string,
    kind: NotifType,
    title: string,
    body: string,
    meta: string,
    time: string,
    unread: bool)

  datatype Tab = All | Requests | Activity

  /** The hard-coded inbox, newest first. */
  const MockNotifs: seq<Notif> := [
    Notif("n1", MatchConfirm, "Confirm match result",
      "Alex reported: Nikita vs Alex \U{2022} 6\U{2013}4, 3\U{2013}6, 10\U{2013}8", "Pending your confirmation", "2m ago", true),
    Notif("n2", Challenge, "You got challenged",
      "Mila challenged you for a ladder match (#5 \U{2192} #4).", "Venue ladder", "18m ago", true),
    Notif("n3", Checkin, "Live now near you",
      "4 players checked in \U{2014} looks like a good time to play.", "Live activity", "1h ago", false),
    Notif("n4", Message, "New message (mock)",
      "Chris: \U{201c}Down for ping pong doubles?\U{201d}", "Direct message (later)", "3h ago", false),
    Notif("n5", System, "Fair play reminder",
      "Only confirmed matches affect ladder rankings. Keep it honest.", "System", "Yesterday", false)
  ]

  predicate IsUnread(n: Notif) {
    n.unread
  }

  /** The "Requests" tab's types. */
  predicate IsRequest(n: Notif) {
    InTab(Requests, n.kind)
  }

  /** The "Activity" tab's types. */
  predicate IsActivity(n: Notif) {
    InTab(Activity, n.kind)
  }

  /** Whether tab `tab` lists a notification of type `kind`. */
  predicate InTab(tab: Tab, kind: NotifType) {
    match tab
    case All => true
    case Requests => kind == MatchConfirm || kind == Challenge
    case Activity => kind == Checkin || kind == System || kind == Message
  }

  /** Whether a card is listed, judged in one pass over both conditions. */
  function Shows(onlyUnread: bool, tab: Tab): Notif -> bool {
    (n: Notif) => (!onlyUnread || n.unread) && InTab(tab, n.kind)
  }

  /** What a tab lists: the notifications that pass both conditions, in inbox order. */
  function Inbox(notifs: seq<Notif>, onlyUnread: bool, tab: Tab): seq<Notif> {
    Keep(notifs, Shows(onlyUnread, tab))
  }

  /** The badge counter: how many notifications are flagged unread. */
  function UnreadCount(notifs: seq<Notif>): nat {
    |Keep(notifs, IsUnread)|
  }

  /** The counter is the number of positions of the inbox holding an unread notification. */
  lemma {:induction false} UnreadCountIsNumberUnread(notifs: seq<Notif>)
    ensures UnreadCount(notifs) == |set i | 0 <= i < |notifs| && notifs[i].unread|
    decreases |notifs|
  {
    if notifs != [] {
      var init, last := notifs[..|notifs| - 1], notifs[|notifs| - 1];
      UnreadCountIsNumberUnread(init);
      assert notifs == init + [last];
      KeepAppend(init, [last], IsUnread);
      var before := set i | 0 <= i < |init| && init[i].unread;
      var all := set i | 0 <= i < |notifs| && notifs[i].unread;
      if last.unread {
        assert all == before + {|init|};
      } else {
        assert all == before;
      }
    }
  }

  /** The mock inbox has two unread notifications. */
  lemma MockUnreadCount()
    ensures UnreadCount(MockNotifs) == 2
  {
    UnreadCountIsNumberUnread(MockNotifs);
    var unread := set i | 0 <= i < |MockNotifs| && MockNotifs[i].unread;
    assert unread == {0, 1};
  }

  /** The inbox screen: its one switch and the fixed inbox. */
  class NotificationsScreen {
    const notifs: seq<Notif>
    var onlyUnread: bool

    constructor ()
      ensures notifs == MockNotifs && !onlyUnread
    {
      notifs := MockNotifs;
      onlyUnread := false;
    }

    /** Flipping the unread-only switch. */
    method SetOnlyUnread(b: bool)
      modifies this`onlyUnread
      ensures onlyUnread == b
    {
      onlyUnread := b;
    }

    /**
     * The list a tab shows: a copy of the inbox, narrowed to unread items
     * when the switch is on, then to the tab's types. The result is the
     * one-pass `Inbox`; the inbox itself is a constant and is not changed.
     */
    method Filtered(tab: Tab) returns (list: seq<Notif>)
      ensures list == Inbox(notifs, onlyUnread, tab)
    {
      list := notifs;
      if onlyUnread {
        list := Keep(list, IsUnread);
      }
      if tab == Requests {
        list := Keep(list, IsRequest);
      }
      if tab == Activity {
        list := Keep(list, IsActivity);
      }
      TwoStages(notifs, onlyUnread, tab);
    }
  }

  /** Narrowing in two stages, as the screen does, gives the one-pass result. */
  lemma TwoStages(notifs: seq<Notif>, onlyUnread: bool, tab: Tab)
    ensures Inbox(notifs, onlyUnread, tab) ==
      var first := if onlyUnread then Keep(notifs, IsUnread) else notifs;
      match tab
      case All => first
      case Requests => Keep(first, IsRequest)
      case Activity => Keep(first, IsActivity)
  {
    var shows := Shows(onlyUnread, tab);
    match tab
    case All =>
      if onlyUnread {
        KeepCongruent(notifs, shows, IsUnread);
      } else {
        KeepAll(notifs, shows);
      }
    case Requests =>
      if onlyUnread {
        KeepThenKeep(notifs, IsUnread, IsRequest, shows);
      } else {
        KeepCongruent(notifs, shows, IsRequest);
      }
    case Activity =>
      if onlyUnread {
        KeepThenKeep(notifs, IsUnread, IsActivity, shows);
      } else {
        KeepCongruent(notifs, shows, IsActivity);
      }
  }

  /**
   * A tab lists exactly the inbox's notifications that pass both
   * conditions, in inbox order: `idx` gives their positions.
   */
  lemma InboxOrder(notifs: seq<Notif>, onlyUnread: bool, tab: Tab) returns (idx: seq<nat>)
    ensures |idx| == |Inbox(notifs, onlyUnread, tab)| && Increasing(idx)
    ensures forall j :: 0 <= j < |idx| ==>
      idx[j] < |notifs| && Inbox(notifs, onlyUnread, tab)[j] == notifs[idx[j]]
    ensures forall k :: 0 <= k < |notifs| ==>
      ((!onlyUnread || notifs[k].unread) && InTab(tab, notifs[k].kind) <==> k in idx)
  {
    idx := KeepIndices(notifs, Shows(onlyUnread, tab));
  }

  /** With the switch on every listed card is unread; each tab lists only its own types. */
  lemma InboxSound(notifs: seq<Notif>, onlyUnread: bool, tab: Tab, n: Notif)
    requires n in Inbox(notifs, onlyUnread, tab)
    ensures n in notifs
    ensures onlyUnread ==> n.unread
    ensures tab == Requests ==> n.kind == MatchConfirm || n.kind == Challenge
    ensures tab == Activity ==> n.kind == Checkin || n.kind == System || n.kind == Message
  {
  }

  /** "All" without the switch lists the whole inbox, in order. */
  lemma AllIsWholeInbox(notifs: seq<Notif>)
    ensures Inbox(notifs, false, All) == notifs
  {
    KeepAll(notifs, Shows(false, All));
  }

  /**
   * "Requests" and "Activity" split "All": each card of "All" is on exactly
   * one of them, and their lengths add up to the length of "All".
   */
  lemma TabsPartitionAll(notifs: seq<Notif>, onlyUnread: bool, n: Notif)
    ensures n in Inbox(notifs, onlyUnread, All) ==>
      (n in Inbox(notifs, onlyUnread, Requests) <==> n !in Inbox(notifs, onlyUnread, Activity))
    ensures |Inbox(notifs, onlyUnread, All)| ==
      |Inbox(notifs, onlyUnread, Requests)| + |Inbox(notifs, onlyUnread, Activity)|
  {
    KeepSplit(notifs, Shows(onlyUnread, All), Shows(onlyUnread, Requests), Shows(onlyUnread, Activity));
    if n in Inbox(notifs, onlyUnread, All) {
      if InTab(Requests, n.kind) {
        KeepComplete(notifs, Shows(onlyUnread, Requests), n);
      } else {
        KeepComplete(notifs, Shows(onlyUnread, Activity), n);
      }
    }
  }

  datatype PillVariant = Secondary | Outline

  /** The small label on a card. */
  datatype Pill = Pill(text: string, variant: PillVariant)

  /** The pill for each notification type. */
  function PillFor(kind: NotifType): Pill {
    match kind
    case MatchConfirm => Pill("Confirm", Secondary)
    case Challenge => Pill("Challenge", Secondary)
    case Checkin => Pill("Live", Outline)
    case Message => Pill("Message", Outline)
    case System => Pill("System", Outline)
  }

  /** Exactly the request types get the highlighted pill, and no two types share a label. */
  lemma PillHighlightsRequests(a: NotifType, b: NotifType)
    ensures PillFor(a).variant == Secondary <==> InTab(Requests, a)
    ensures PillFor(a).text == PillFor(b).text ==> a == b
  {
  }
}
