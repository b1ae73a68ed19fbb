/** The configuration service: it reads `~/.config/bartender/config.json`,
    strips `//` comments line by line, parses the JSON and validates it
    against the built-in defaults. Its `_validateConfig` starts from a
    shallow copy of the defaults, so every write lands in the nested objects
    of the defaults themselves; the classes below keep that sharing. The
    file system, the JSON parser and the file monitor are parameters. */
module Config {
  import opened Wrappers
  import opened Strings
  import opened JsRuntime

  // ---------------------------------------------------------------- values

  /** A value produced by `JSON.parse`. */
  datatype Json =
    | JNull
    | JBool(b: bool)
    | JNum(num: real)
    | JStr(str: string)
    | JArr(elems: seq<Json>)
    | JObj(fields: map<string, Json>)

  datatype Monitor = Primary | Focused | Index(n: real)

  datatype Layout = Layout(left: seq<string>, center: seq<string>, right: seq<string>)

  datatype Notifications = Notifications(monitor: Monitor, groupByApp: bool)

  /** The value of a `Config` object: the layout lists, one settings object
      per widget, and the notification settings. */
  datatype ConfigValue = ConfigValue(
    layout: Layout,
    widgets: map<string, map<string, Json>>,
    notifications: Notifications)

  /** How reading the file went: it does not exist, `load_contents` failed,
      or it produced this text. */
  datatype ConfigFile = Missing | Unreadable | Contents(raw: string)

  /** The events a `Gio.FileMonitor` reports. */
  datatype FileEvent =
    | Changed | ChangesDoneHint | Deleted | Created | AttributeChanged
    | PreUnmount | Unmounted | Moved | Renamed | MovedIn | MovedOut

  /** `DEFAULT_CONFIG` as written in the source. */
  function DefaultValue(): ConfigValue
  {
    ConfigValue(
      Layout(["workspaces"], ["feed"], ["tray", "audio", "volume", "proxyforge", "vpn", "clock"]),
      map[
        "workspaces" := map["enabled" := JBool(true)],
        "feed" := map["enabled" := JBool(true)],
        "tray" := map["enabled" := JBool(true)],
        "audio" := map["enabled" := JBool(true), "card" := JNum(3.0)],
        "volume" := map["enabled" := JBool(true)],
        "proxyforge" := map["enabled" := JBool(true)],
        "vpn" := map["enabled" := JBool(true)],
        "clock" := map["enabled" := JBool(true), "format" := JStr("%a %b %d %l:%M %p")],
        "weather" := map["enabled" := JBool(false), "location" := JStr("auto"), "units" := JStr("imperial")],
        "wifi" := map["enabled" := JBool(false)],
        "bluetooth" := map["enabled" := JBool(false)]],
      Notifications(Primary, true))
  }

  // ---------------------------------------------------------------- comments

  /** One line with everything from its first `//` removed. */
  function StripLine(line: string): (r: string)
    ensures |r| <= |line| && r == line[..|r|]
    ensures !Contains(r, "//")
    ensures !Contains(line, "//") ==> r == line
    ensures Contains(line, "//") ==> OccursAt(line, "//", |r|)
  {
    var i := IndexOf(line, "//");
    if i >= 0 then
      PrefixBeforeFirst(line, "//", i);
      line[..i]
    else line
  }

  function StripLines(lines: seq<string>): (r: seq<string>)
    ensures |r| == |lines|
    ensures forall k :: 0 <= k < |r| ==> r[k] == StripLine(lines[k])
  {
    seq(|lines|, k requires 0 <= k < |lines| => StripLine(lines[k]))
  }

  /** The comment stripping of `_load`: split on "\n", cut each line at its
      first `//`, join with "\n". It keeps the number and the order of the
      lines: line k of the result is line k of the input cut at its first
      `//`. */
  function StripComments(raw: string): (r: string)
    ensures Split(r, '\n') == StripLines(Split(raw, '\n'))
  {
    var lines := StripLines(Split(raw, '\n'));
    assert forall p :: p in lines ==> '\n' !in p by {
      forall p | p in lines ensures '\n' !in p {
        var k :| 0 <= k < |lines| && lines[k] == p;
        assert '\n' !in Split(raw, '\n')[k];
        assert p == Split(raw, '\n')[k][..|p|];
      }
    }
    SplitJoin(lines, '\n');
    Join(lines, '\n')
  }

  /** A line whose text before its first "//" holds no slash is cut right
      there. */
  lemma {:induction false} StripLineAt(pre: string, post: string)
    requires '/' !in pre
    ensures StripLine(pre + "//" + post) == pre
  {
    var line := pre + "//" + post;
    assert line[|pre|..|pre| + 2] == "//";
    assert OccursAt(line, "//", |pre|);
    forall k | 0 <= k < |pre| ensures !OccursAt(line, "//", k) {
      assert line[k] == pre[k];
    }
    assert IndexOf(line, "//") == |pre|;
    assert line[..|pre|] == pre;
  }

  /** The cut does not know about string literals: a URL inside a JSON
      string loses everything from its `//` on. */
  lemma {:induction false} StripCutsInsideStrings()
    ensures StripLine("\"url\": \"http://host\",") == "\"url\": \"http:"
  {
    var pre := "\"url\": \"http:";
    assert "\"url\": \"http://host\"," == pre + "//" + "host\",";
    StripLineAt(pre, "host\",");
  }

  // ---------------------------------------------------------------- JSON access

  /** `typeof v === "object"` for a truthy `v`: an object or an array. */
  predicate IsObjectLike(j: Json)
  {
    j.JObj? || j.JArr?
  }

  lemma {:induction false} NatToStringInjectiveAll()
    ensures forall m: nat, n: nat :: NatToString(m) == NatToString(n) ==> m == n
  {
    forall m: nat, n: nat | NatToString(m) == NatToString(n)
      ensures m == n
    {
      NatToStringInjective(m, n);
    }
  }

  /** The own enumerable properties of an object or array, as
      `Object.entries` and the spread operator see them: an array's are its
      indices written in decimal. */
  function ObjectView(j: Json): (r: map<string, Json>)
    requires IsObjectLike(j)
    ensures j.JObj? ==> r == j.fields
    ensures j.JArr? ==> forall i :: 0 <= i < |j.elems| ==> NatToString(i) in r && r[NatToString(i)] == j.elems[i]
    ensures j.JArr? ==> forall k :: k in r ==> exists i :: 0 <= i < |j.elems| && k == NatToString(i)
  {
    if j.JObj? then j.fields
    else
      NatToStringInjectiveAll();
      map i | 0 <= i < |j.elems| :: NatToString(i) := j.elems[i]
  }

  /** `j[key]` for the property names used here (none is an array index). */
  function Member(j: Json, key: string): Option<Json>
  {
    if j.JObj? && key in j.fields then Some(j.fields[key]) else None
  }

  /** `arr.filter((w) => typeof w === "string")` */
  function StringsOf(elems: seq<Json>): (r: seq<string>)
    ensures |r| <= |elems|
    ensures forall x :: x in r ==> JStr(x) in elems
    ensures forall k :: 0 <= k < |elems| && elems[k].JStr? ==> elems[k].str in r
  {
    if elems == [] then []
    else (if elems[0].JStr? then [elems[0].str] else []) + StringsOf(elems[1..])
  }

  lemma {:induction false} StringsOfAppend(a: seq<Json>, b: seq<Json>)
    ensures StringsOf(a + b) == StringsOf(a) + StringsOf(b)
  {
    if a == [] {
      assert a + b == b;
    } else {
      assert (a + b)[1..] == a[1..] + b;
      StringsOfAppend(a[1..], b);
    }
  }

  /** An array of strings passes the filter whole and in order. */
  lemma {:induction false} StringsOfStrings(ss: seq<string>)
    ensures StringsOf(seq(|ss|, k requires 0 <= k < |ss| => JStr(ss[k]))) == ss
  {
    StringsOfAll(seq(|ss|, k requires 0 <= k < |ss| => JStr(ss[k])), ss);
  }

  lemma {:induction false} StringsOfAll(js: seq<Json>, ss: seq<string>)
    requires |js| == |ss| && forall k :: 0 <= k < |ss| ==> js[k] == JStr(ss[k])
    ensures StringsOf(js) == ss
  {
    if ss != [] {
      StringsOfAll(js[1..], ss[1..]);
      assert StringsOf(js) == [ss[0]] + StringsOf(js[1..]);
      assert ss == [ss[0]] + ss[1..];
    }
  }

  // ---------------------------------------------------------------- validation

  /** One layout list: the strings of the user's array, else the current one. */
  function LayoutList(current: seq<string>, user: Option<Json>): (r: seq<string>)
    ensures user.Some? && user.value.JArr? ==> r == StringsOf(user.value.elems)
    ensures !(user.Some? && user.value.JArr?) ==> r == current
  {
    if user.Some? && user.value.JArr? then StringsOf(user.value.elems) else current
  }

  function ValidateLayout(current: Layout, parsed: Json): Layout
  {
    var l := Member(parsed, "layout");
    if l.Some? && IsObjectLike(l.value) then
      Layout(LayoutList(current.left, Member(l.value, "left")),
             LayoutList(current.center, Member(l.value, "center")),
             LayoutList(current.right, Member(l.value, "right")))
    else current
  }

  /** The settings a widget entry is spread over: the current entry, or
      nothing. */
  function EntryBase(widgets: map<string, map<string, Json>>, name: string): map<string, Json>
  {
    if name in widgets then widgets[name] else map[]
  }

  predicate Overrides(user: map<string, Json>, name: string)
  {
    name in user && IsObjectLike(user[name])
  }

  /** `{ ...current[name], ...cfg }` for every user entry whose value is an
      object; the other entries are left alone. */
  function OverlayWidgets(current: map<string, map<string, Json>>, user: map<string, Json>)
    : (r: map<string, map<string, Json>>)
    ensures forall name :: name in r <==> name in current || Overrides(user, name)
    ensures forall name :: Overrides(user, name) ==> r[name] == EntryBase(current, name) + ObjectView(user[name])
    ensures forall name :: name in current && !Overrides(user, name) ==> r[name] == current[name]
  {
    map name | name in current.Keys + user.Keys && (name in current || Overrides(user, name)) ::
      if Overrides(user, name) then EntryBase(current, name) + ObjectView(user[name]) else current[name]
  }

  /** In an overridden entry the user's keys win and every other key of the
      current entry stays. */
  lemma {:induction false} OverlayEntry(current: map<string, map<string, Json>>, user: map<string, Json>, name: string, key: string)
    requires Overrides(user, name)
    ensures key in ObjectView(user[name]) ==>
      OverlayWidgets(current, user)[name][key] == ObjectView(user[name])[key]
    ensures key !in ObjectView(user[name]) && name in current && key in current[name] ==>
      OverlayWidgets(current, user)[name][key] == current[name][key]
    ensures key in OverlayWidgets(current, user)[name] <==>
      key in ObjectView(user[name]) || (name in current && key in current[name])
  {
  }

  function ValidateWidgets(current: map<string, map<string, Json>>, parsed: Json): map<string, map<string, Json>>
  {
    var w := Member(parsed, "widgets");
    if w.Some? && IsObjectLike(w.value) then OverlayWidgets(current, ObjectView(w.value)) else current
  }

  /** `parsed.notifications[key]` when `parsed.notifications` is an object. */
  function NotificationsField(parsed: Json, key: string): Option<Json>
  {
    var n := Member(parsed, "notifications");
    if n.Some? && IsObjectLike(n.value) then Member(n.value, key) else None
  }

  /** The JSON value that selects a monitor setting. */
  function MonitorJson(m: Monitor): Json
  {
    match m
    case Primary => JStr("primary")
    case Focused => JStr("focused")
    case Index(n) => JNum(n)
  }

  /** The values `monitor` accepts: "primary", "focused" or a number. */
  predicate SelectsMonitor(j: Option<Json>)
  {
    j == Some(JStr("primary")) || j == Some(JStr("focused")) || (j.Some? && j.value.JNum?)
  }

  /** `monitor` accepts "primary", "focused" or a number, `groupByApp` a
      boolean; anything else keeps the current setting. An accepted monitor
      value is stored as the setting it spells. */
  function ValidateNotifications(current: Notifications, parsed: Json): (r: Notifications)
    ensures SelectsMonitor(NotificationsField(parsed, "monitor")) ==>
            Some(MonitorJson(r.monitor)) == NotificationsField(parsed, "monitor")
    ensures !SelectsMonitor(NotificationsField(parsed, "monitor")) ==> r.monitor == current.monitor
    ensures forall b :: NotificationsField(parsed, "groupByApp") == Some(JBool(b)) ==> r.groupByApp == b
    ensures (forall b :: NotificationsField(parsed, "groupByApp") != Some(JBool(b))) ==>
            r.groupByApp == current.groupByApp
  {
    var m := NotificationsField(parsed, "monitor");
    var g := NotificationsField(parsed, "groupByApp");
    var monitor :=
      if m == Some(JStr("primary")) then Primary
      else if m == Some(JStr("focused")) then Focused
      else if m.Some? && m.value.JNum? then Index(m.value.num)
      else current.monitor;
    var group := if g.Some? && g.value.JBool? then g.value.b else current.groupByApp;
    assert g.Some? && g.value.JBool? ==> g == Some(JBool(g.value.b));
    Notifications(monitor, group)
  }

  /** Every monitor setting survives being written to the file and read back. */
  lemma {:induction false} MonitorRoundTrip(current: Notifications, parsed: Json, m: Monitor)
    requires NotificationsField(parsed, "monitor") == Some(MonitorJson(m))
    ensures ValidateNotifications(current, parsed).monitor == m
  {
    assert SelectsMonitor(NotificationsField(parsed, "monitor"));
  }

  /** What `_validateConfig` yields when the defaults currently hold
      `current`; None when it throws (`parsed` is null). */
  function Validate(current: ConfigValue, parsed: Json): (r: Option<ConfigValue>)
    ensures r.None? <==> parsed.JNull?
  {
    if parsed.JNull? then None
    else Some(ConfigValue(ValidateLayout(current.layout, parsed),
                          ValidateWidgets(current.widgets, parsed),
                          ValidateNotifications(current.notifications, parsed)))
  }

  /** Validation never drops a widget entry, and leaves alone every entry
      the user's `widgets` object does not override. */
  lemma {:induction false} ValidateKeepsWidgets(current: ConfigValue, parsed: Json, name: string)
    requires !parsed.JNull? && name in current.widgets
    ensures name in Validate(current, parsed).value.widgets
    ensures (forall w :: Member(parsed, "widgets") == Some(w) && IsObjectLike(w) ==> !Overrides(ObjectView(w), name))
            ==> Validate(current, parsed).value.widgets[name] == current.widgets[name]
  {
  }

  /** The outcome of `_load` given the value the defaults hold before it: the
      value the defaults (and with them `config`) hold after it. Every
      failure, `null` included, leaves that value as it was. */
  function LoadFrom(current: ConfigValue, file: ConfigFile, parse: string -> Option<Json>): (r: ConfigValue)
    ensures file.Missing? || file.Unreadable? ==> r == current
    ensures file.Contents? && (parse(StripComments(file.raw)).None? || parse(StripComments(file.raw)) == Some(JNull))
            ==> r == current
    ensures file.Contents? && parse(StripComments(file.raw)).Some? && !parse(StripComments(file.raw)).value.JNull?
            ==> Some(r) == Validate(current, parse(StripComments(file.raw)).value)
  {
    match file
    case Missing => current
    case Unreadable => current
    case Contents(raw) =>
      match parse(StripComments(raw))
      case None => current
      case Some(p) => Validate(current, p).GetOr(current)
  }

  /** The loader as evidently intended: validation starts from the pristine
      defaults every time, so the result depends on the file alone. */
  function LoadConfig(file: ConfigFile, parse: string -> Option<Json>): (r: ConfigValue)
    ensures file.Missing? || file.Unreadable? ==> r == DefaultValue()
    ensures file.Contents? && (parse(StripComments(file.raw)).None? || parse(StripComments(file.raw)) == Some(JNull))
            ==> r == DefaultValue()
  {
    LoadFrom(DefaultValue(), file, parse)
  }

  /** With the intended loader, a file holding `{}` gives exactly the
      defaults, whatever was loaded before. */
  lemma {:induction false} LoadConfigEmptyObject(file: ConfigFile, parse: string -> Option<Json>)
    requires file.Contents?
    requires parse(StripComments(file.raw)) == Some(JObj(map[]))
    ensures LoadConfig(file, parse) == DefaultValue()
  {
  }

  /** As written, validating `{}` changes nothing: the result is whatever
      the defaults object holds at that moment. */
  lemma {:induction false} ValidateEmptyObject(current: ConfigValue)
    ensures Validate(current, JObj(map[])) == Some(current)
  {
    var p := JObj(map[]);
    assert Member(p, "layout").None? && Member(p, "widgets").None?;
    assert NotificationsField(p, "monitor").None? && NotificationsField(p, "groupByApp").None?;
  }

  /** As written, a key set through the file stays after the file is gone:
      the fallback for a missing file is the defaults object the first load
      wrote into. The program takes this path when a reload scheduled by a
      change fires after the file was deleted; a deletion alone schedules
      no reload. */
  lemma {:induction false} OverrideSurvivesMissing(current: ConfigValue, raw: string, parse: string -> Option<Json>,
                                name: string, key: string, v: Json)
    requires parse(StripComments(raw)) == Some(JObj(map["widgets" := JObj(map[name := JObj(map[key := v])])]))
    ensures var again := LoadFrom(LoadFrom(current, Contents(raw), parse), Missing, parse);
            name in again.widgets && key in again.widgets[name] && again.widgets[name][key] == v
  {
    var user := map[name := JObj(map[key := v])];
    assert Member(JObj(map["widgets" := JObj(user)]), "widgets") == Some(JObj(user));
    OverlayEntry(current.widgets, user, name, key);
  }

  /** A first load sets the clock format to "%H:%M"; the file is then
      edited to `{}`, which reloads it. As written the clock keeps "%H:%M",
      where the intended loader shows the default format again. */
  lemma {:induction false} StaleOverrideAsWritten(raw: string, edited: string, parse: string -> Option<Json>)
    requires parse(StripComments(raw))
             == Some(JObj(map["widgets" := JObj(map["clock" := JObj(map["format" := JStr("%H:%M")])])]))
    requires parse(StripComments(edited)) == Some(JObj(map[]))
    ensures var reloaded := LoadFrom(LoadFrom(DefaultValue(), Contents(raw), parse), Contents(edited), parse);
            && "clock" in reloaded.widgets && "format" in reloaded.widgets["clock"]
            && reloaded.widgets["clock"]["format"] == JStr("%H:%M")
    ensures var start := LoadConfig(Contents(edited), parse).widgets;
            "clock" in start && "format" in start["clock"] && start["clock"]["format"] == JStr("%a %b %d %l:%M %p")
  {
    var first := LoadFrom(DefaultValue(), Contents(raw), parse);
    OverrideSurvivesMissing(DefaultValue(), raw, parse, "clock", "format", JStr("%H:%M"));
    ValidateEmptyObject(first);
    ValidateEmptyObject(DefaultValue());
    DefaultClock();
  }

  lemma {:induction false} DefaultClock()
    ensures "clock" in DefaultValue().widgets && "format" in DefaultValue().widgets["clock"]
    ensures DefaultValue().widgets["clock"]["format"] == JStr("%a %b %d %l:%M %p")
  {
  }

  // ---------------------------------------------------------------- lookups

  /** `isEnabled`: `cfg?.enabled !== false`, so only a boolean `false` in
      the widget's own settings turns it off. A name without settings reads
      `undefined` or a member of `Object.prototype`, neither of which has an
      `enabled` property, and is enabled. */
  function IsEnabled(c: ConfigValue, name: string): (r: bool)
    ensures !GetWidgetConfig(c, name).Own? ==> r
    ensures name in c.widgets && "enabled" in c.widgets[name] && c.widgets[name]["enabled"].JBool?
            ==> r == c.widgets[name]["enabled"].b
    ensures name in c.widgets && ("enabled" !in c.widgets[name] || !c.widgets[name]["enabled"].JBool?) ==> r
  {
    !(name in c.widgets && "enabled" in c.widgets[name] && c.widgets[name]["enabled"] == JBool(false))
  }

  /** What `widgets[name]` reads on a plain object: an own entry, the
      property `name` inherited from `Object.prototype` (for `__proto__`,
      `Object.prototype` itself), or `undefined`. */
  datatype WidgetLookup = Own(settings: map<string, Json>) | Inherited(property: string) | Undefined

  /** `getWidgetConfig`: the widget's own settings; failing those, a name
      of `Object.prototype` reads the inherited member, and any other name
      reads `undefined`. */
  function GetWidgetConfig(c: ConfigValue, name: string): (r: WidgetLookup)
    ensures r.Own? <==> name in c.widgets
    ensures r.Own? ==> r.settings == c.widgets[name]
    ensures r.Inherited? <==> name !in c.widgets && name in ObjectPrototypeNames
    ensures r.Inherited? ==> r.property == name
  {
    if name in c.widgets then Own(c.widgets[name])
    else if name in ObjectPrototypeNames then Inherited(name)
    else Undefined
  }

  /** Out of the box, `getWidgetConfig("toString")` is the inherited
      `Object.prototype.toString`, not `undefined`, while a registered name
      reads its settings. */
  lemma {:induction false} InheritedWidgetConfig()
    ensures GetWidgetConfig(DefaultValue(), "toString") == Inherited("toString")
    ensures GetWidgetConfig(DefaultValue(), "__proto__") == Inherited("__proto__")
    ensures GetWidgetConfig(DefaultValue(), "clock").Own?
    ensures GetWidgetConfig(DefaultValue(), "battery") == Undefined
  {
    assert ObjectPrototypeNames[5] == "toString" && ObjectPrototypeNames[7] == "__proto__";
    assert forall k :: 0 <= k < |ObjectPrototypeNames| ==> ObjectPrototypeNames[k] != "battery";
  }

  /** Out of the box, weather, wifi and bluetooth are off and every other
      name, known or not, is on. */
  lemma {:induction false} DefaultEnabled(name: string)
    ensures IsEnabled(DefaultValue(), name) <==> name !in {"weather", "wifi", "bluetooth"}
  {
  }

  /** A user's `enabled` flag decides, whatever the defaults say. */
  lemma {:induction false} UserEnabledWins(current: ConfigValue, parsed: Json, name: string, flag: bool)
    requires Member(parsed, "widgets").Some?
    requires var w := Member(parsed, "widgets").value;
             && w.JObj? && name in w.fields && w.fields[name].JObj?
             && "enabled" in w.fields[name].fields && w.fields[name].fields["enabled"] == JBool(flag)
    ensures IsEnabled(Validate(current, parsed).value, name) == flag
  {
    var w := Member(parsed, "widgets").value;
    OverlayEntry(current.widgets, w.fields, name, "enabled");
  }

  /** `_watchConfig` schedules a reload for a change and a creation only;
      a deletion or a finished batch of changes does not reload. */
  function TriggersReload(e: FileEvent): (r: bool)
    ensures r <==> e == Changed || e == Created
    ensures e == Deleted || e == ChangesDoneHint ==> !r
  {
    e == Changed || e == Created
  }

  // ---------------------------------------------------------------- objects

  class LayoutObject {
    var left: seq<string>
    var center: seq<string>
    var right: seq<string>

    constructor (l: Layout)
      ensures Value() == l
    {
      left, center, right := l.left, l.center, l.right;
    }

    function Value(): Layout
      reads this
    {
      Layout(left, center, right)
    }

    /** The layout part of `_validateConfig`, writing into this object. */
    method Apply(parsed: Json)
      modifies this
      ensures Value() == ValidateLayout(old(Value()), parsed)
    {
      var l := Member(parsed, "layout");
      if l.Some? && IsObjectLike(l.value) {
        var user := Member(l.value, "left");
        if user.Some? && user.value.JArr? {
          left := StringsOf(user.value.elems);
        }
        user := Member(l.value, "center");
        if user.Some? && user.value.JArr? {
          center := StringsOf(user.value.elems);
        }
        user := Member(l.value, "right");
        if user.Some? && user.value.JArr? {
          right := StringsOf(user.value.elems);
        }
      }
    }
  }

  /** The `widgets` object of a config: one settings object per widget. */
  class WidgetTable {
    var entries: map<string, map<string, Json>>

    constructor (m: map<string, map<string, Json>>)
      ensures entries == m
    {
      entries := m;
    }

    /** The widgets part of `_validateConfig`: every entry of the user's
        `widgets` whose value is an object is spread over the entry this
        table holds for it. Each name comes up once, so the entry read is
        still the one from before the loop. */
    method Merge(user: map<string, Json>)
      modifies this
      ensures entries == OverlayWidgets(old(entries), user)
    {
      ghost var before := entries;
      ghost var done: set<string> := {};
      var todo := user.Keys;
      while todo != {}
        invariant done !! todo && done + todo == user.Keys
        invariant entries == OverlayWidgets(before, Restrict(user, done))
        decreases todo
      {
        var name :| name in todo;
        var cfg := user[name];
        OverlayStep(before, user, done, name);
        if IsObjectLike(cfg) {
          var base := if name in entries then entries[name] else map[];
          entries := entries[name := base + ObjectView(cfg)];
        }
        todo := todo - {name};
        done := done + {name};
      }
      RestrictAll(user);
    }
  }

  class NotificationsObject {
    var monitor: Monitor
    var groupByApp: bool

    constructor (n: Notifications)
      ensures Value() == n
    {
      monitor, groupByApp := n.monitor, n.groupByApp;
    }

    function Value(): Notifications
      reads this
    {
      Notifications(monitor, groupByApp)
    }

    /** The notifications part of `_validateConfig`, writing into this object. */
    method Apply(parsed: Json)
      modifies this
      ensures Value() == ValidateNotifications(old(Value()), parsed)
    {
      var n := Member(parsed, "notifications");
      if n.Some? && IsObjectLike(n.value) {
        var m := Member(n.value, "monitor");
        if m == Some(JStr("primary")) {
          monitor := Primary;
        } else if m == Some(JStr("focused")) {
          monitor := Focused;
        } else if m.Some? && m.value.JNum? {
          monitor := Index(m.value.num);
        }
        var g := Member(n.value, "groupByApp");
        if g.Some? && g.value.JBool? {
          groupByApp := g.value.b;
        }
      }
    }
  }

  /** A `Config` object: its three nested objects are references. */
  class ConfigObject {
    const layout: LayoutObject
    const widgets: WidgetTable
    const notifications: NotificationsObject

    constructor (l: LayoutObject, w: WidgetTable, n: NotificationsObject)
      ensures layout == l && widgets == w && notifications == n
    {
      layout, widgets, notifications := l, w, n;
    }

    function Value(): ConfigValue
      reads layout, widgets, notifications
    {
      ConfigValue(layout.Value(), widgets.entries, notifications.Value())
    }
  }

  class ConfigService {
    /** `DEFAULT_CONFIG`, the module-level object. */
    const defaults: ConfigObject
    var config: ConfigObject
    /** Reload timers started by the file monitor and not yet fired. */
    var pendingReloads: nat

    /** `config` is `DEFAULT_CONFIG` or a shallow copy of it: either way its
        nested objects are those of the defaults. */
    predicate Valid()
      reads this, config
    {
      && config.layout == defaults.layout
      && config.widgets == defaults.widgets
      && config.notifications == defaults.notifications
    }

    /** The service as constructed: `config` starts as `DEFAULT_CONFIG` and
        the first load runs at once. */
    constructor (file: ConfigFile, parse: string -> Option<Json>)
      ensures Valid() && pendingReloads == 0
      ensures config.Value() == defaults.Value() == LoadConfig(file, parse)
      ensures fresh(defaults.layout) && fresh(defaults.widgets) && fresh(defaults.notifications)
    {
      var d := DefaultValue();
      var l := new LayoutObject(d.layout);
      var w := new WidgetTable(d.widgets);
      var n := new NotificationsObject(d.notifications);
      var c := new ConfigObject(l, w, n);
      defaults := c;
      config := c;
      pendingReloads := 0;
      new;
      Load(file, parse);
    }

    /** `_validateConfig`: a shallow copy of the defaults, written through.
        None when `parsed` is null (reading `parsed.layout` throws). */
    method ValidateConfig(parsed: Json) returns (result: Option<ConfigObject>)
      modifies defaults.layout, defaults.widgets, defaults.notifications
      ensures result.None? <==> parsed.JNull?
      ensures result.None? ==> defaults.Value() == old(defaults.Value())
      ensures result.Some? ==>
        && fresh(result.value)
        && result.value.layout == defaults.layout
        && result.value.widgets == defaults.widgets
        && result.value.notifications == defaults.notifications
        && defaults.Value() == Validate(old(defaults.Value()), parsed).value
    {
      if parsed.JNull? {
        return None;
      }
      var r := new ConfigObject(defaults.layout, defaults.widgets, defaults.notifications);
      r.layout.Apply(parsed);
      var w := Member(parsed, "widgets");
      if w.Some? && IsObjectLike(w.value) {
        r.widgets.Merge(ObjectView(w.value));
      }
      r.notifications.Apply(parsed);
      result := Some(r);
    }

    /** `_load`. Every failure falls back to the `DEFAULT_CONFIG` object,
        which by now holds whatever earlier loads wrote into it. */
    method Load(file: ConfigFile, parse: string -> Option<Json>)
      requires Valid()
      modifies this, defaults.layout, defaults.widgets, defaults.notifications
      ensures Valid() && pendingReloads == old(pendingReloads)
      ensures config.Value() == defaults.Value() == LoadFrom(old(defaults.Value()), file, parse)
      ensures file.Missing? || file.Unreadable? ==> config == defaults
    {
      match file
      case Missing =>
        config := defaults;
      case Unreadable =>
        config := defaults;
      case Contents(raw) =>
        var parsed := parse(StripComments(raw));
        if parsed.None? {
          config := defaults;
        } else {
          var result := ValidateConfig(parsed.value);
          if result.None? {
            config := defaults;
          } else {
            config := result.value;
          }
        }
    }

    /** The file monitor's `changed` handler. */
    method OnFileEvent(e: FileEvent)
      modifies this
      ensures config == old(config)
      ensures pendingReloads == old(pendingReloads) + (if TriggersReload(e) then 1 else 0)
    {
      if TriggersReload(e) {
        pendingReloads := pendingReloads + 1;
      }
    }

    /** A scheduled reload timer firing 100 ms later. */
    method ReloadFires(file: ConfigFile, parse: string -> Option<Json>)
      requires Valid() && pendingReloads > 0
      modifies this, defaults.layout, defaults.widgets, defaults.notifications
      ensures Valid() && pendingReloads == old(pendingReloads) - 1
      ensures config.Value() == defaults.Value() == LoadFrom(old(defaults.Value()), file, parse)
    {
      Load(file, parse);
      pendingReloads := pendingReloads - 1;
    }

    /** `isEnabled` */
    function Enabled(name: string): bool
      reads this, config.layout, config.widgets, config.notifications
    {
      IsEnabled(config.Value(), name)
    }
  }

  /** The scenario of `StaleOverrideAsWritten` on the service object: the
      first load sets the clock format, the edit to `{}` is a change event
      that schedules a reload, and when the reload fires the format set by
      the first load is still in force. */
  method StaleOverrideInService(raw: string, edited: string, parse: string -> Option<Json>)
    returns (svc: ConfigService)
    requires parse(StripComments(raw))
             == Some(JObj(map["widgets" := JObj(map["clock" := JObj(map["format" := JStr("%H:%M")])])]))
    requires parse(StripComments(edited)) == Some(JObj(map[]))
    ensures svc.Valid() && svc.pendingReloads == 0
    ensures var c := svc.config.Value();
            "clock" in c.widgets && "format" in c.widgets["clock"] && c.widgets["clock"]["format"] == JStr("%H:%M")
  {
    svc := new ConfigService(Contents(raw), parse);
    svc.OnFileEvent(Changed);
    svc.ReloadFires(Contents(edited), parse);
    StaleOverrideAsWritten(raw, edited, parse);
  }

  // ---------------------------------------------------------------- loop helpers

  function Restrict(m: map<string, Json>, keys: set<string>): (r: map<string, Json>)
    ensures forall k :: k in r <==> k in m && k in keys
    ensures forall k :: k in r ==> r[k] == m[k]
  {
    map k | k in m && k in keys :: m[k]
  }

  lemma {:induction false} RestrictAll(m: map<string, Json>)
    ensures Restrict(m, m.Keys) == m
  {
  }

  lemma {:induction false} OverlayStep(current: map<string, map<string, Json>>, user: map<string, Json>,
                    done: set<string>, name: string)
    requires name in user && name !in done
    ensures EntryBase(OverlayWidgets(current, Restrict(user, done)), name) == EntryBase(current, name)
    ensures OverlayWidgets(current, Restrict(user, done + {name})) ==
      if IsObjectLike(user[name])
      then OverlayWidgets(current, Restrict(user, done))[name := EntryBase(current, name) + ObjectView(user[name])]
      else OverlayWidgets(current, Restrict(user, done))
  {
    var u1 := Restrict(user, done + {name});
    var u0 := Restrict(user, done);
    var a := OverlayWidgets(current, u1);
    var b := OverlayWidgets(current, u0);
    var c := if IsObjectLike(user[name])
             then b[name := EntryBase(current, name) + ObjectView(user[name])]
             else b;
    forall n ensures n in a <==> n in c {
      assert Overrides(u1, n) <==> Overrides(u0, n) || (n == name && IsObjectLike(user[name]));
    }
    forall n | n in a ensures a[n] == c[n] {
      if n != name {
        assert Overrides(u1, n) <==> Overrides(u0, n);
        if Overrides(u1, n) {
          assert u1[n] == u0[n];
        }
      }
    }
    assert a == c;
  }
}
