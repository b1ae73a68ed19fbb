/** The notification panel (`widgets/NotificationPanel.tsx`): the shared
    visibility flag and its listeners, the relative time and urgency class
    of one notification, and the grouping of notifications by application. */
module NotificationPanel {
  import opened Wrappers
  import opened Strings

  // ---------------------------------------------------------------- visibility

  /** The module-level `panelVisible` flag and `panelListeners` set. */
  class PanelState {
    var visible: bool
    /** The subscribed listeners, in the order they were added. */
    var listeners: seq<nat>
    /** Each call of a listener, in order: which listener, with what value. */
    var delivered: seq<(nat, bool)>

    predicate Valid()
      reads this
    {
      forall i, j :: 0 <= i < j < |listeners| ==> listeners[i] != listeners[j]
    }

    constructor ()
      ensures Valid() && !visible && listeners == [] && delivered == []
    {
      visible := false;
      listeners := [];
      delivered := [];
    }

    /** `panelListeners.add`: a listener already present is not added again. */
    method Subscribe(listener: nat)
      requires Valid()
      modifies this
      ensures Valid()
      ensures listeners == if listener in old(listeners) then old(listeners) else old(listeners) + [listener]
      ensures visible == old(visible) && delivered == old(delivered)
    {
      if listener !in listeners {
        listeners := listeners + [listener];
      }
    }

    /** `panelListeners.delete`, run by a panel's cleanup. */
    method Unsubscribe(listener: nat)
      requires Valid()
      modifies this
      ensures Valid() && listener !in listeners
      ensures forall l :: l in listeners <==> l in old(listeners) && l != listener
      ensures visible == old(visible) && delivered == old(delivered)
    {
      var kept: seq<nat> := [];
      var i := 0;
      while i < |listeners|
        invariant 0 <= i <= |listeners|
        invariant forall l :: l in kept <==> l in listeners[..i] && l != listener
        invariant forall a, b :: 0 <= a < b < |kept| ==> kept[a] != kept[b]
      {
        if listeners[i] != listener {
          assert listeners[i] !in listeners[..i];
          kept := kept + [listeners[i]];
        }
        assert listeners[..i + 1] == listeners[..i] + [listeners[i]];
        i := i + 1;
      }
      assert listeners[..i] == listeners;
      listeners := kept;
    }

    /** `togglePanel`: flips the flag, then calls every listener with the
        new value, in the order they were added. */
    method Toggle()
      modifies this
      ensures visible == !old(visible) && listeners == old(listeners)
      ensures |delivered| == |old(delivered)| + |listeners|
      ensures delivered[..|old(delivered)|] == old(delivered)
      ensures forall k :: 0 <= k < |listeners| ==> delivered[|old(delivered)| + k] == (listeners[k], visible)
    {
      visible := !visible;
      var i := 0;
      while i < |listeners|
        invariant 0 <= i <= |listeners|
        invariant visible == !old(visible) && listeners == old(listeners)
        invariant |delivered| == |old(delivered)| + i
        invariant delivered[..|old(delivered)|] == old(delivered)
        invariant forall k :: 0 <= k < i ==> delivered[|old(delivered)| + k] == (listeners[k], visible)
      {
        delivered := delivered + [(listeners[i], visible)];
        i := i + 1;
      }
    }
  }

  /** Toggling twice restores the flag, and each listener has then been
      told both values. */
  method ToggleTwice(panel: PanelState)
    modifies panel
    ensures panel.visible == old(panel.visible) && panel.listeners == old(panel.listeners)
    ensures |panel.delivered| == |old(panel.delivered)| + 2 * |panel.listeners|
  {
    panel.Toggle();
    panel.Toggle();
  }

  // ---------------------------------------------------------------- one notification

  /** "just now" under a minute, then whole minutes, hours, days. */
  function TimeAgo(now: int, timestamp: int): (r: string)
    ensures r == "just now" <==> now - timestamp < 60
    ensures r != "just now" ==> |r| > 5 && r[|r| - 4..] == " ago"
  {
    var diff := now - timestamp;
    if diff < 60 then "just now"
    else
      var r := if diff < 3600 then NatToString(diff / 60) + "m ago"
               else if diff < 86400 then NatToString(diff / 3600) + "h ago"
               else NatToString(diff / 86400) + "d ago";
      assert r[|r| - 1] == 'o' != "just now"[7];
      r
  }

  /** The label is the number of whole units elapsed and its unit, and the
      number reads back: 1 to 59 minutes, 1 to 23 hours, or 1 day or more;
      "just now" exactly under a minute, including a time in the future. */
  lemma {:induction false} TimeAgoReadBack(now: int, timestamp: int)
    ensures var diff := now - timestamp; var shown := TimeAgo(now, timestamp);
            && (shown == "just now" <==> diff < 60)
            && (60 <= diff < 3600 ==> ParseInt(shown) == Some(diff / 60) && 1 <= diff / 60 < 60
                                      && shown == NatToString(diff / 60) + "m ago")
            && (3600 <= diff < 86400 ==> ParseInt(shown) == Some(diff / 3600) && 1 <= diff / 3600 < 24
                                         && shown == NatToString(diff / 3600) + "h ago")
            && (86400 <= diff ==> ParseInt(shown) == Some(diff / 86400) && 1 <= diff / 86400
                                  && shown == NatToString(diff / 86400) + "d ago")
  {
    var diff := now - timestamp;
    if diff >= 60 {
      var unit := if diff < 3600 then 60 else if diff < 86400 then 3600 else 86400;
      var suffix := if diff < 3600 then "m ago" else if diff < 86400 then "h ago" else "d ago";
      assert TimeAgo(now, timestamp) == NatToString(diff / unit) + suffix;
      ParseIntOfNat(diff / unit, suffix);
      assert TimeAgo(now, timestamp)[0] == NatToString(diff / unit)[0];
    }
  }

  /** `AstalNotifd.Urgency`: LOW is 0, NORMAL 1, CRITICAL 2. */
  const Normal := 1
  const Critical := 2

  function UrgencyClass(urgency: int): (c: string)
    ensures c in {"critical", "normal", "low"}
    ensures c == "critical" <==> urgency == Critical
    ensures c == "normal" <==> urgency == Normal
  {
    if urgency == Critical then "critical" else if urgency == Normal then "normal" else "low"
  }

  // ---------------------------------------------------------------- grouping

  /** The fields of a notification the panel groups by; missing text is
      the empty string. */
  datatype Notification = Notification(id: nat, appName: string, appIcon: string, time: int, urgency: int)

  datatype Group = Group(appName: string, appIcon: string, notifications: seq<Notification>)

  const DefaultIcon := "dialog-information-symbolic"

  /** `n.appName || "Unknown"` */
  function AppKey(n: Notification): string
  {
    if n.appName != [] then n.appName else "Unknown"
  }

  /** `n.appIcon || "dialog-information-symbolic"` */
  function IconOf(n: Notification): string
  {
    if n.appIcon != [] then n.appIcon else DefaultIcon
  }

  function Init(ns: seq<Notification>): seq<Notification>
    requires ns != []
  {
    ns[..|ns| - 1]
  }

  function Last(ns: seq<Notification>): Notification
    requires ns != []
  {
    ns[|ns| - 1]
  }

  /** The applications of `ns`, each once, in order of first appearance. */
  function Keys(ns: seq<Notification>): (ks: seq<string>)
    ensures forall i, j :: 0 <= i < j < |ks| ==> ks[i] != ks[j]
    ensures forall k :: k in ks <==> exists i :: 0 <= i < |ns| && AppKey(ns[i]) == k
  {
    if ns == [] then []
    else
      var ks := Keys(Init(ns));
      assert forall i :: 0 <= i < |ns| - 1 ==> Init(ns)[i] == ns[i];
      if AppKey(Last(ns)) in ks then ks else ks + [AppKey(Last(ns))]
  }

  /** The notifications of `ns` from application `key`, in input order. */
  function Members(ns: seq<Notification>, key: string): (ms: seq<Notification>)
    ensures forall m :: m in ms ==> m in ns && AppKey(m) == key
  {
    if ns == [] then []
    else Members(Init(ns), key) + (if AppKey(Last(ns)) == key then [Last(ns)] else [])
  }

  /** The icon of the first notification from `key`. */
  function FirstIcon(ns: seq<Notification>, key: string): string
  {
    if ns == [] then DefaultIcon
    else if key in Keys(Init(ns)) then FirstIcon(Init(ns), key)
    else IconOf(Last(ns))
  }

  /** What `groupNotifications` computes: one group per application in
      order of first appearance, with that application's notifications in
      input order and the icon of its first notification. */
  function Grouped(ns: seq<Notification>): (gs: seq<Group>)
    ensures |gs| == |Keys(ns)|
  {
    var ks := Keys(ns);
    seq(|ks|, i requires 0 <= i < |ks| => Group(ks[i], FirstIcon(ns, ks[i]), Members(ns, ks[i])))
  }

  /** A notification from an application already seen is appended to that
      application's group and changes nothing else. */
  lemma {:induction false} GroupedSeen(ns: seq<Notification>, n: Notification, j: nat)
    requires j < |Keys(ns)| && Keys(ns)[j] == AppKey(n)
    ensures Grouped(ns + [n]) == Grouped(ns)[j := Grouped(ns)[j].(notifications := Grouped(ns)[j].notifications + [n])]
  {
    var ms := ns + [n];
    assert Init(ms) == ns && Last(ms) == n;
    var ks := Keys(ns);
    assert Keys(ms) == ks;
    var before, after := Grouped(ns), Grouped(ms);
    var want := before[j := before[j].(notifications := before[j].notifications + [n])];
    forall i | 0 <= i < |ks|
      ensures after[i] == want[i]
    {
      assert FirstIcon(ms, ks[i]) == FirstIcon(ns, ks[i]);
      assert Members(ms, ks[i]) == Members(ns, ks[i]) + (if AppKey(n) == ks[i] then [n] else []);
    }
  }

  lemma {:induction false} MembersAbsent(ns: seq<Notification>, key: string)
    requires key !in Keys(ns)
    ensures Members(ns, key) == []
    decreases |ns|
  {
    if ns != [] {
      assert AppKey(Last(ns)) in Keys(ns);
      assert forall i :: 0 <= i < |Init(ns)| ==> Init(ns)[i] == ns[i];
      MembersAbsent(Init(ns), key);
    }
  }

  /** The applications grow by the new notification's, if it is new. */
  lemma {:induction false} KeysStep(ns: seq<Notification>, n: Notification)
    ensures Keys(ns + [n]) == if AppKey(n) in Keys(ns) then Keys(ns) else Keys(ns) + [AppKey(n)]
  {
    assert Init(ns + [n]) == ns && Last(ns + [n]) == n;
  }

  /** A notification from a new application opens a new last group. */
  lemma {:induction false} GroupedNew(ns: seq<Notification>, n: Notification)
    requires AppKey(n) !in Keys(ns)
    ensures Grouped(ns + [n]) == Grouped(ns) + [Group(AppKey(n), IconOf(n), [n])]
  {
    var ms := ns + [n];
    assert Init(ms) == ns && Last(ms) == n;
    var key := AppKey(n);
    var ks := Keys(ns);
    assert Keys(ms) == ks + [key];
    MembersAbsent(ns, key);
    var before, after := Grouped(ns), Grouped(ms);
    var want := before + [Group(key, IconOf(n), [n])];
    forall i | 0 <= i < |ks| + 1
      ensures after[i] == want[i]
    {
      if i < |ks| {
        assert FirstIcon(ms, ks[i]) == FirstIcon(ns, ks[i]);
        assert Members(ms, ks[i]) == Members(ns, ks[i]);
      }
    }
  }

  /** The loop state of `groupNotifications` after the notifications
      `ns`: the groups so far, and the map from each application to the
      position of its group. */
  ghost predicate Placed(groups: seq<Group>, slot: map<string, nat>, ns: seq<Notification>)
  {
    && groups == Grouped(ns)
    && (forall k :: k in slot <==> k in Keys(ns))
    && (forall k :: k in slot ==> slot[k] < |groups| && Keys(ns)[slot[k]] == k)
  }

  /** One turn of the loop: find or create the group of `n` and push `n`. */
  method Place(groups: seq<Group>, slot: map<string, nat>, ghost ns: seq<Notification>, n: Notification)
    returns (groups': seq<Group>, slot': map<string, nat>)
    requires Placed(groups, slot, ns)
    ensures Placed(groups', slot', ns + [n])
  {
    var key := AppKey(n);
    KeysStep(ns, n);
    groups', slot' := groups, slot;
    if key !in slot {
      GroupedNew(ns, n);
      slot' := slot[key := |groups|];
      groups' := groups + [Group(key, IconOf(n), [])];
    } else {
      GroupedSeen(ns, n, slot[key]);
    }
    var j := slot'[key];
    groups' := groups'[j := groups'[j].(notifications := groups'[j].notifications + [n])];
  }

  /** `groupNotifications`: the loop that fills a `Map` from application
      to group (creating a group with an empty list, then pushing), read
      back in insertion order. */
  method GroupNotifications(notifs: seq<Notification>) returns (groups: seq<Group>)
    ensures groups == Grouped(notifs)
  {
    groups := [];
    var slot: map<string, nat> := map[];
    var i := 0;
    while i < |notifs|
      invariant 0 <= i <= |notifs|
      invariant Placed(groups, slot, notifs[..i])
    {
      assert notifs[..i + 1] == notifs[..i] + [notifs[i]];
      groups, slot := Place(groups, slot, notifs[..i], notifs[i]);
      i := i + 1;
    }
    assert notifs[..i] == notifs;
  }

  /** The number of notifications over all groups. */
  function Total(gs: seq<Group>): nat
  {
    if gs == [] then 0 else Total(gs[..|gs| - 1]) + |gs[|gs| - 1].notifications|
  }

  lemma {:induction false} TotalUpdate(gs: seq<Group>, j: nat, n: Notification)
    requires j < |gs|
    ensures Total(gs[j := gs[j].(notifications := gs[j].notifications + [n])]) == Total(gs) + 1
    decreases |gs|
  {
    var hs := gs[j := gs[j].(notifications := gs[j].notifications + [n])];
    if j < |gs| - 1 {
      assert hs[..|hs| - 1] == gs[..|gs| - 1][j := gs[j].(notifications := gs[j].notifications + [n])];
      TotalUpdate(gs[..|gs| - 1], j, n);
    } else {
      assert hs[..|hs| - 1] == gs[..|gs| - 1];
    }
  }

  /** Grouping loses and duplicates nothing: the group sizes add up to the
      number of notifications. */
  lemma {:induction false} GroupedTotal(ns: seq<Notification>)
    ensures Total(Grouped(ns)) == |ns|
    decreases |ns|
  {
    if ns != [] {
      var init, n := Init(ns), Last(ns);
      assert ns == init + [n];
      GroupedTotal(init);
      if AppKey(n) in Keys(init) {
        var j :| 0 <= j < |Keys(init)| && Keys(init)[j] == AppKey(n);
        GroupedSeen(init, n, j);
        TotalUpdate(Grouped(init), j, n);
      } else {
        GroupedNew(init, n);
        var gs := Grouped(init) + [Group(AppKey(n), IconOf(n), [n])];
        assert gs[..|gs| - 1] == Grouped(init);
      }
    }
  }

  /** Every notification is in the group of its application, and that
      group is the only one with that application. */
  lemma {:induction false} GroupedPlacesEach(ns: seq<Notification>, i: nat)
    requires i < |ns|
    ensures exists j :: 0 <= j < |Grouped(ns)| && Grouped(ns)[j].appName == AppKey(ns[i])
                        && ns[i] in Grouped(ns)[j].notifications
    ensures forall j :: 0 <= j < |Grouped(ns)| && ns[i] in Grouped(ns)[j].notifications ==>
                          Grouped(ns)[j].appName == AppKey(ns[i])
    ensures forall a, b :: 0 <= a < b < |Grouped(ns)| ==> Grouped(ns)[a].appName != Grouped(ns)[b].appName
  {
    MembersHas(ns, i);
    assert AppKey(ns[i]) in Keys(ns);
    var j :| 0 <= j < |Keys(ns)| && Keys(ns)[j] == AppKey(ns[i]);
    assert Grouped(ns)[j].notifications == Members(ns, AppKey(ns[i]));
  }

  /** Grouping keeps input order within a group: the members of a
      concatenation are those of the first part, then those of the second. */
  lemma {:induction false} MembersAppend(a: seq<Notification>, b: seq<Notification>, key: string)
    ensures Members(a + b, key) == Members(a, key) + Members(b, key)
    decreases |b|
  {
    if b == [] {
      assert a + b == a;
    } else {
      var ab, n := a + b, Last(b);
      assert Init(ab) == a + Init(b) && Last(ab) == n;
      var tail := if AppKey(n) == key then [n] else [];
      assert Members(ab, key) == Members(a + Init(b), key) + tail;
      MembersAppend(a, Init(b), key);
      assert Members(b, key) == Members(Init(b), key) + tail;
      assert Members(a, key) + Members(Init(b), key) + tail == Members(a, key) + (Members(Init(b), key) + tail);
    }
  }

  lemma {:induction false} MembersHas(ns: seq<Notification>, i: nat)
    requires i < |ns|
    ensures ns[i] in Members(ns, AppKey(ns[i]))
    decreases |ns|
  {
    if i < |ns| - 1 {
      assert Init(ns)[i] == ns[i];
      MembersHas(Init(ns), i);
    }
  }

  /** The group icon comes from the first notification of its application,
      or is the default when that one has none. */
  lemma {:induction false} FirstIconIsFirst(ns: seq<Notification>, i: nat)
    requires i < |ns|
    requires forall j :: 0 <= j < i ==> AppKey(ns[j]) != AppKey(ns[i])
    ensures FirstIcon(ns, AppKey(ns[i])) == IconOf(ns[i])
    ensures ns[i].appIcon == [] ==> FirstIcon(ns, AppKey(ns[i])) == DefaultIcon
    decreases |ns|
  {
    var key := AppKey(ns[i]);
    if i < |ns| - 1 {
      assert Init(ns)[i] == ns[i];
      assert key in Keys(Init(ns));
      FirstIconIsFirst(Init(ns), i);
    } else {
      assert forall j :: 0 <= j < |Init(ns)| ==> Init(ns)[j] == ns[j];
    }
  }

  /** Groups come in order of first appearance: the applications of a
      prefix of the input are a prefix of the applications of the whole. */
  lemma {:induction false} KeysPrefix(ns: seq<Notification>, i: nat)
    requires i <= |ns|
    ensures Keys(ns[..i]) <= Keys(ns)
    decreases |ns| - i
  {
    if i < |ns| {
      KeysPrefix(ns, i + 1);
      var p := ns[..i + 1];
      assert Init(p) == ns[..i];
    } else {
      assert ns[..i] == ns;
    }
  }

  // ---------------------------------------------------------------- presentation rules

  datatype GroupView = EmptyBox | Collapsed(count: nat) | Expanded(withHeader: bool)

  /** What a group renders: an empty box for no notifications, the
      collapsed header when five or more are folded, else the list with a
      collapse header from five on. */
  function View(count: nat, expanded: bool): (v: GroupView)
    ensures v == EmptyBox <==> count == 0
    ensures v.Collapsed? ==> v.count == count
    ensures v.Collapsed? || (v.Expanded? && v.withHeader) <==> count >= 5
    ensures v.Collapsed? <==> count >= 5 && !expanded
  {
    if count == 0 then EmptyBox
    else if count >= 5 && !expanded then Collapsed(count)
    else Expanded(count >= 5)
  }

  /** Every group `groupNotifications` builds holds a notification, so
      the empty box is never what a real group renders. */
  lemma {:induction false} GroupedNonEmpty(ns: seq<Notification>, j: nat)
    requires j < |Grouped(ns)|
    ensures Grouped(ns)[j].notifications != []
    ensures forall expanded :: View(|Grouped(ns)[j].notifications|, expanded) != EmptyBox
  {
    var key := Keys(ns)[j];
    assert key in Keys(ns);
    var i :| 0 <= i < |ns| && AppKey(ns[i]) == key;
    MembersHas(ns, i);
  }

  /** `notifd?.notifications?.length || 0` */
  function UnreadCount(notifications: Option<seq<Notification>>): (n: nat)
    ensures notifications.None? ==> n == 0
    ensures notifications.Some? ==> n == |notifications.value|
  {
    match notifications
    case None => 0
    case Some(ns) => |ns|
  }
}
