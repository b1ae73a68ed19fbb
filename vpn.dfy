/** The Mullvad VPN service (`services/vpn.ts`): reading the output of
    `mullvad status`, and the relay rotation that reconnects to a random
    location every twenty seconds while it is switched on. */
module Vpn {
  import opened Wrappers
  import opened Strings

  datatype VpnStatus = VpnStatus(connected: bool, connecting: bool, location: string, ip: string)

  /** The status shown before the first reading and after a failed one. */
  const Disconnected := VpnStatus(false, false, "", "")

  const LocationMarker := "Visible location:"
  const IpMarker := "IPv4:"

  // ---------------------------------------------------------------- markers

  /** A marker that ends in its only colon: no occurrence of it can start
      inside a text and run on into a following copy of it. */
  predicate ColonEnded(marker: string)
  {
    |marker| > 0 && marker[|marker| - 1] == ':' && ':' !in marker[..|marker| - 1]
  }

  /** Where a case-insensitive search for `marker` from `from` on first
      succeeds. */
  function FirstMarker(s: string, marker: string, from: nat): (r: Option<nat>)
    requires |marker| > 0
    ensures r.Some? ==> from <= r.value && OccursAtIgnoreCase(s, marker, r.value)
    ensures forall k: nat :: from <= k && (r.None? || k < r.value) ==> !OccursAtIgnoreCase(s, marker, k)
    decreases |s| - from
  {
    if from + |marker| > |s| then None
    else if OccursAtIgnoreCase(s, marker, from) then Some(from)
    else FirstMarker(s, marker, from + 1)
  }

  /** Index just past a marker found at `i` and the `\s*` that follows it. */
  function AfterMarker(s: string, i: nat, marker: string): (q: nat)
    requires OccursAtIgnoreCase(s, marker, i)
    ensures i + |marker| <= q <= |s| && AllSpace(s[i + |marker|..q])
    ensures q < |s| ==> !IsSpace(s[q])
  {
    var t := s[i + |marker|..];
    var n := SpacePrefixLen(t);
    assert s[i + |marker|..i + |marker| + n] == t[..n];
    i + |marker| + n
  }

  /** A status text that starts with `pre` and then has `tag`, a
      spelling of a colon-ended marker in any case, finds that marker
      first right after `pre` when `pre` does not hold it. */
  lemma {:induction false} FirstMarkerAt(pre: string, tag: string, tail: string, marker: string)
    requires ColonEnded(marker) && EqualsIgnoreCase(tag, marker)
    requires !ContainsIgnoreCase(pre, marker)
    ensures FirstMarker(pre + tag + tail, marker, 0) == Some(|pre|)
  {
    var s := pre + tag + tail;
    var m := |marker|;
    assert OccursAtIgnoreCase(s, marker, |pre|) by {
      forall j | 0 <= j < m ensures Lower(s[|pre| + j]) == Lower(marker[j]) {
        assert s[|pre| + j] == tag[j];
      }
    }
    forall k: nat | k < |pre|
      ensures !OccursAtIgnoreCase(s, marker, k)
    {
      if OccursAtIgnoreCase(s, marker, k) {
        if k + m <= |pre| {
          assert OccursAtIgnoreCase(pre, marker, k) by {
            forall j | 0 <= j < m ensures Lower(pre[k + j]) == Lower(marker[j]) {
              assert s[k + j] == pre[k + j];
            }
          }
          assert false;
        }
      }
    }
  }

  // ---------------------------------------------------------------- location

  /** Length of the run `.` matches: everything before the first line
      terminator. */
  function LineLen(t: string): (n: nat)
    ensures n <= |t| && (n < |t| ==> IsLineTerminator(t[n]))
    ensures forall k :: 0 <= k < n ==> !IsLineTerminator(t[k])
  {
    if t == [] || IsLineTerminator(t[0]) then 0 else 1 + LineLen(t[1..])
  }

  /** The capture of `/<marker>\s*(.+)/i` when it holds more than
      spaces. Greedy `\s*` also crosses line ends, so the text may sit on a
      following line. When only spaces follow the first marker, the match
      either fails or captures spaces only; both count as no text. */
  function Capture(s: string, marker: string): (r: Option<string>)
    requires |marker| > 0
    ensures !ContainsIgnoreCase(s, marker) ==> r.None?
    ensures r.Some? ==> r.value != [] && !IsSpace(r.value[0])
  {
    match FirstMarker(s, marker, 0)
    case None => None
    case Some(i) =>
      var q := AfterMarker(s, i, marker);
      if q == |s| then None
      else
        assert s[q..][0] == s[q] && !IsLineTerminator(s[q]);
        Some(s[q..q + LineLen(s[q..])])
  }

  /** The capture trimmed, or "" when there is none; so a text is read
      exactly when there is a capture. */
  function LineAfter(s: string, marker: string): (r: string)
    requires |marker| > 0
    ensures !ContainsIgnoreCase(s, marker) ==> r == ""
    ensures r != "" <==> Capture(s, marker).Some?
    ensures Trim(r) == r
  {
    match Capture(s, marker)
    case None => ""
    case Some(c) =>
      TrimIdempotent(c);
      TrimEmptyIff(c);
      Trim(c)
  }

  /** The location `refresh` reads with `/Visible location:\s*(.+)/i`. */
  function Location(s: string): (r: string)
    ensures !ContainsIgnoreCase(s, LocationMarker) ==> r == ""
    ensures Trim(r) == r
  {
    LineAfter(s, LocationMarker)
  }

  lemma {:induction false} MarkersColonEnded()
    ensures ColonEnded(LocationMarker) && ColonEnded(IpMarker)
  {
    assert LocationMarker[..|LocationMarker| - 1] == "Visible location";
    assert IpMarker[..|IpMarker| - 1] == "IPv4";
  }

  lemma {:induction false} LineLenOf(name: string, rest: string)
    requires forall k :: 0 <= k < |name| ==> !IsLineTerminator(name[k])
    requires rest == [] || IsLineTerminator(rest[0])
    ensures LineLen(name + rest) == |name|
  {
    if name != [] {
      assert (name + rest)[1..] == name[1..] + rest;
      LineLenOf(name[1..], rest);
    } else {
      assert name + rest == rest;
    }
  }

  /** After a marker, written in any case and followed by spaces, the
      search stands at the text that follows. */
  lemma {:induction false} MarkerLine(pre: string, tag: string, sp: string, body: string, marker: string)
    requires ColonEnded(marker) && EqualsIgnoreCase(tag, marker) && !ContainsIgnoreCase(pre, marker)
    requires AllSpace(sp) && (body == [] || !IsSpace(body[0]))
    ensures var s := pre + tag + sp + body;
            && FirstMarker(s, marker, 0) == Some(|pre|)
            && AfterMarker(s, |pre|, marker) == |pre| + |tag| + |sp|
            && s[|pre| + |tag| + |sp|..] == body
  {
    var s := pre + tag + sp + body;
    assert s == pre + tag + (sp + body);
    FirstMarkerAt(pre, tag, sp + body, marker);
    assert s[|pre| + |tag|..] == sp + body;
    SpacePrefixOfSpaces(sp, body);
  }

  lemma {:induction false} CaptureAt(s: string, marker: string, i: nat, q: nat, name: string, rest: string)
    requires |marker| > 0
    requires FirstMarker(s, marker, 0) == Some(i) && AfterMarker(s, i, marker) == q
    requires q <= |s| && s[q..] == name + rest && name != [] && LineLen(name + rest) == |name|
    ensures Capture(s, marker) == Some(name)
  {
    assert s[q..q + |name|] == (name + rest)[..|name|] == name;
  }

  /** A line of a status text that holds the marker, in any case and
      followed by spaces, is read back as the text after them. */
  lemma {:induction false} LineAfterOfLine(pre: string, tag: string, sp: string, name: string, rest: string, marker: string)
    requires ColonEnded(marker) && !ContainsIgnoreCase(pre, marker) && EqualsIgnoreCase(tag, marker)
    requires AllSpace(sp)
    requires name != [] && !IsSpace(name[0])
    requires forall k :: 0 <= k < |name| ==> !IsLineTerminator(name[k])
    requires rest == [] || IsLineTerminator(rest[0])
    ensures LineAfter(pre + tag + sp + name + rest, marker) == Trim(name)
  {
    var s := pre + tag + sp + name + rest;
    assert s == pre + tag + sp + (name + rest);
    MarkerLine(pre, tag, sp, name + rest, marker);
    LineLenOf(name, rest);
    CaptureAt(s, marker, |pre|, |pre| + |tag| + |sp|, name, rest);
  }

  /** The location line of a status text is read back as the name it
      shows, in whatever case the tag is written and however many spaces
      follow the colon. */
  lemma {:induction false} LocationOfLine(pre: string, tag: string, sp: string, name: string, rest: string)
    requires !ContainsIgnoreCase(pre, LocationMarker) && EqualsIgnoreCase(tag, LocationMarker)
    requires AllSpace(sp)
    requires name != [] && !IsSpace(name[0])
    requires forall k :: 0 <= k < |name| ==> !IsLineTerminator(name[k])
    requires rest == [] || IsLineTerminator(rest[0])
    ensures Location(pre + tag + sp + name + rest) == Trim(name)
  {
    MarkersColonEnded();
    LineAfterOfLine(pre, tag, sp, name, rest, LocationMarker);
  }

  /** A capture lies on one line. */
  lemma {:induction false} CaptureShape(s: string, marker: string)
    requires |marker| > 0 && Capture(s, marker).Some?
    ensures forall k :: 0 <= k < |Capture(s, marker).value| ==> !IsLineTerminator(Capture(s, marker).value[k])
  {
    var i := FirstMarker(s, marker, 0).value;
    var q := AfterMarker(s, i, marker);
    assert s[q..q + LineLen(s[q..])] == s[q..][..LineLen(s[q..])];
  }

  /** What `LineAfter` reads is trimmed and lies on one line. */
  lemma {:induction false} LineAfterShape(s: string, marker: string)
    requires |marker| > 0
    ensures Trim(LineAfter(s, marker)) == LineAfter(s, marker)
    ensures forall k :: 0 <= k < |LineAfter(s, marker)| ==> !IsLineTerminator(LineAfter(s, marker)[k])
  {
    if Capture(s, marker).Some? {
      var line := Capture(s, marker).value;
      CaptureShape(s, marker);
      TrimIdempotent(line);
      var r := Trim(line);
      var st := |line| - |TrimStart(line)|;
      forall k | 0 <= k < |r| ensures !IsLineTerminator(r[k]) {
        assert r[k] == line[st + k];
      }
    }
  }

  /** A location read is trimmed and lies on one line. */
  lemma {:induction false} LocationShape(s: string)
    ensures Trim(Location(s)) == Location(s)
    ensures forall k :: 0 <= k < |Location(s)| ==> !IsLineTerminator(Location(s)[k])
  {
    LineAfterShape(s, LocationMarker);
  }

  // ---------------------------------------------------------------- address

  /** End of the run of decimal digits that starts at `i`. */
  function DigitRunEnd(s: string, i: nat): (j: nat)
    requires i <= |s|
    ensures i <= j <= |s| && (j < |s| ==> !IsDigit(s[j]))
    ensures forall k :: i <= k < j ==> IsDigit(s[k])
    decreases |s| - i
  {
    if i < |s| && IsDigit(s[i]) then DigitRunEnd(s, i + 1) else i
  }

  /** Where a match of `\d+(\.\d+){n-1}` that starts at `i` ends, each
      digit run taken whole, as the greedy `\d+` of the address pattern
      takes it. */
  function GroupsEnd(s: string, i: nat, n: nat): (r: Option<nat>)
    requires i <= |s| && n >= 1
    ensures r.Some? ==> i < r.value <= |s|
    decreases n
  {
    var j := DigitRunEnd(s, i);
    if j == i then None
    else if n == 1 then Some(j)
    else if j < |s| && s[j] == '.' then GroupsEnd(s, j + 1, n - 1)
    else None
  }

  /** Non-empty runs of digits: joined with dots, the groups of an
      address. */
  predicate DigitGroups(g: seq<string>)
  {
    g == [] || (g[0] != [] && AllDigits(g[0]) && DigitGroups(g[1..]))
  }

  lemma {:induction false} DigitGroupsCons(p: string, g: seq<string>)
    requires p != [] && AllDigits(p) && DigitGroups(g)
    ensures DigitGroups([p] + g)
  {
    assert ([p] + g)[1..] == g;
  }

  /** The digit groups a match of `GroupsEnd` covers. */
  ghost function GroupsOf(s: string, i: nat, n: nat): seq<string>
    requires i <= |s| && n >= 1 && GroupsEnd(s, i, n).Some?
    decreases n
  {
    var j := DigitRunEnd(s, i);
    if n == 1 then [s[i..j]] else [s[i..j]] + GroupsOf(s, j + 1, n - 1)
  }

  /** What `GroupsEnd` measures is `n` digit groups joined with dots,
      ending where the digits end. */
  lemma {:induction false} GroupsEndSound(s: string, i: nat, n: nat, e: nat)
    requires i <= |s| && n >= 1 && GroupsEnd(s, i, n) == Some(e)
    ensures e == |s| || !IsDigit(s[e])
    ensures |GroupsOf(s, i, n)| == n && DigitGroups(GroupsOf(s, i, n))
    ensures Join(GroupsOf(s, i, n), '.') == s[i..e]
    decreases n
  {
    GroupsEndStops(s, i, n, e);
    GroupsOfDigits(s, i, n, e);
    GroupsOfJoin(s, i, n, e);
  }

  lemma {:induction false} GroupsEndStops(s: string, i: nat, n: nat, e: nat)
    requires i <= |s| && n >= 1 && GroupsEnd(s, i, n) == Some(e)
    ensures e == |s| || !IsDigit(s[e])
    decreases n
  {
    if n > 1 {
      GroupsEndNext(s, i, n, e);
      GroupsEndStops(s, DigitRunEnd(s, i) + 1, n - 1, e);
    }
  }

  lemma {:induction false} GroupsOfDigits(s: string, i: nat, n: nat, e: nat)
    requires i <= |s| && n >= 1 && GroupsEnd(s, i, n) == Some(e)
    ensures |GroupsOf(s, i, n)| == n && DigitGroups(GroupsOf(s, i, n))
    decreases n
  {
    if n == 1 {
      GroupsEndOne(s, i, e);
    } else {
      var j := DigitRunEnd(s, i);
      GroupsEndNext(s, i, n, e);
      GroupsOfDigits(s, j + 1, n - 1, e);
      DigitGroupsCons(s[i..j], GroupsOf(s, j + 1, n - 1));
    }
  }

  lemma {:induction false} GroupsOfJoin(s: string, i: nat, n: nat, e: nat)
    requires i <= |s| && n >= 1 && GroupsEnd(s, i, n) == Some(e)
    ensures Join(GroupsOf(s, i, n), '.') == s[i..e]
    decreases n
  {
    if n == 1 {
      GroupsEndOne(s, i, e);
    } else {
      var j := DigitRunEnd(s, i);
      GroupsEndNext(s, i, n, e);
      GroupsOfJoin(s, j + 1, n - 1, e);
      GroupsOfDigits(s, j + 1, n - 1, e);
      GroupsEndStep(s, i, j, e, GroupsOf(s, j + 1, n - 1));
    }
  }

  lemma {:induction false} GroupsEndOne(s: string, i: nat, e: nat)
    requires i <= |s| && GroupsEnd(s, i, 1) == Some(e)
    ensures e == |s| || !IsDigit(s[e])
    ensures |GroupsOf(s, i, 1)| == 1 && DigitGroups(GroupsOf(s, i, 1))
    ensures Join(GroupsOf(s, i, 1), '.') == s[i..e]
  {
    DigitSlice(s, i, e);
    DigitGroupsCons(s[i..e], []);
    assert [s[i..e]] + [] == [s[i..e]];
  }

  /** A match of more than one group: a run of digits, a dot, and a match
      of one group fewer. */
  lemma {:induction false} GroupsEndNext(s: string, i: nat, n: nat, e: nat)
    requires i <= |s| && n >= 2 && GroupsEnd(s, i, n) == Some(e)
    ensures var j := DigitRunEnd(s, i);
            && i < j < |s| && s[j] == '.' && GroupsEnd(s, j + 1, n - 1) == Some(e)
            && s[i..j] != [] && AllDigits(s[i..j])
            && GroupsOf(s, i, n) == [s[i..j]] + GroupsOf(s, j + 1, n - 1)
  {
    DigitSlice(s, i, DigitRunEnd(s, i));
  }

  lemma {:induction false} DigitSlice(s: string, i: nat, j: nat)
    requires i < j <= |s| && forall k :: i <= k < j ==> IsDigit(s[k])
    ensures s[i..j] != [] && AllDigits(s[i..j])
  {
  }

  lemma {:induction false} GroupsEndStep(s: string, i: nat, j: nat, e: nat, g: seq<string>)
    requires i < j < e <= |s| && s[j] == '.'
    requires s[i..j] != [] && AllDigits(s[i..j]) && DigitGroups(g) && |g| >= 1
    requires Join(g, '.') == s[j + 1..e]
    ensures DigitGroups([s[i..j]] + g) && Join([s[i..j]] + g, '.') == s[i..e]
  {
    DigitGroupsCons(s[i..j], g);
    JoinCons(s[i..j], g, '.');
    assert s[i..e] == s[i..j] + [s[j]] + s[j + 1..e];
  }

  /** A run of digits from `i` to `j` that nothing else continues ends
      at `j`. */
  lemma {:induction false} DigitRunEndAt(s: string, i: nat, j: nat)
    requires i <= j <= |s| && (j == |s| || !IsDigit(s[j]))
    requires forall k :: i <= k < j ==> IsDigit(s[k])
    ensures DigitRunEnd(s, i) == j
    decreases j - i
  {
    if i < j {
      DigitRunEndAt(s, i + 1, j);
    }
  }

  /** `w` is spelled out in `s` from index `i` on. */
  predicate At(s: string, i: nat, w: string)
  {
    i + |w| <= |s| && forall k :: 0 <= k < |w| ==> s[i + k] == w[k]
  }

  lemma {:induction false} AtSlice(s: string, i: nat, w: string)
    requires At(s, i, w)
    ensures s[i..i + |w|] == w
  {
  }

  /** Conversely, digit groups joined with dots and followed by a
      non-digit are measured exactly. */
  lemma {:induction false} GroupsEndComplete(s: string, i: nat, g: seq<string>)
    requires |g| >= 1 && DigitGroups(g) && At(s, i, Join(g, '.'))
    requires i + |Join(g, '.')| == |s| || !IsDigit(s[i + |Join(g, '.')|])
    ensures GroupsEnd(s, i, |g|) == Some(i + |Join(g, '.')|)
    decreases |g|
  {
    var j := i + |g[0]|;
    if |g| == 1 {
      DigitsAt(s, i, g[0]);
      DigitRunEndAt(s, i, j);
    } else {
      JoinAt(s, i, g);
      DigitsAt(s, i, g[0]);
      DigitRunEndAt(s, i, j);
      GroupsEndComplete(s, j + 1, g[1..]);
    }
  }

  lemma {:induction false} DigitsAt(s: string, i: nat, p: string)
    requires At(s, i, p) && AllDigits(p)
    ensures forall k :: i <= k < i + |p| ==> IsDigit(s[k])
  {
    forall k | i <= k < i + |p| ensures IsDigit(s[k]) {
      assert s[i + (k - i)] == p[k - i];
    }
  }

  /** Where the first group, its dot and the other groups lie. */
  lemma {:induction false} JoinAt(s: string, i: nat, g: seq<string>)
    requires |g| >= 2 && At(s, i, Join(g, '.'))
    ensures var p, y := g[0], Join(g[1..], '.');
            && |Join(g, '.')| == |p| + 1 + |y|
            && At(s, i, p) && s[i + |p|] == '.' && At(s, i + |p| + 1, y)
  {
    var p, y := g[0], Join(g[1..], '.');
    var t := Join(g, '.');
    assert t == p + ['.'] + y by {
      assert g == [p] + g[1..];
      JoinCons(p, g[1..], '.');
    }
    forall k | 0 <= k < |p| ensures s[i + k] == p[k] {
      assert t[k] == p[k];
    }
    assert s[i + |p|] == t[|p|];
    forall k | 0 <= k < |y| ensures s[i + |p| + 1 + k] == y[k] {
      assert t[|p| + 1 + k] == y[k];
    }
  }

  /** The address `/<marker>\s*(\d+\.\d+\.\d+\.\d+)/i` captures when
      its search reaches `i`. */
  function AddressAt(s: string, marker: string, i: nat): (r: Option<string>)
  {
    if !OccursAtIgnoreCase(s, marker, i) then None
    else
      var q := AfterMarker(s, i, marker);
      match GroupsEnd(s, q, 4)
      case None => None
      case Some(e) => Some(s[q..e])
  }

  /** The first place from `from` on where the address pattern matches: a
      marker without an address after it does not stop the search. */
  function FirstAddress(s: string, marker: string, from: nat): (r: Option<nat>)
    ensures r.Some? ==> from <= r.value && AddressAt(s, marker, r.value).Some?
    ensures forall k: nat :: from <= k && (r.None? || k < r.value) ==> AddressAt(s, marker, k).None?
    decreases |s| - from
  {
    if from >= |s| then None
    else if AddressAt(s, marker, from).Some? then Some(from)
    else FirstAddress(s, marker, from + 1)
  }

  /** The captured address, or "": an address read is four groups of
      digits joined with dots, and there is none without the marker. */
  function AddressAfter(s: string, marker: string): (r: string)
    ensures !ContainsIgnoreCase(s, marker) ==> r == ""
    ensures r == "" || exists g :: |g| == 4 && DigitGroups(g) && Join(g, '.') == r
  {
    match FirstAddress(s, marker, 0)
    case None => ""
    case Some(i) =>
      var q := AfterMarker(s, i, marker);
      var e := GroupsEnd(s, q, 4).value;
      GroupsEndSound(s, q, 4, e);
      assert Join(GroupsOf(s, q, 4), '.') == s[q..e];
      AddressAt(s, marker, i).value
  }

  /** The address `refresh` reads with `/IPv4:\s*(\d+\.\d+\.\d+\.\d+)/i`. */
  function Ip(s: string): (r: string)
    ensures !ContainsIgnoreCase(s, IpMarker) ==> r == ""
    ensures r == "" || exists g :: |g| == 4 && DigitGroups(g) && Join(g, '.') == r
  {
    AddressAfter(s, IpMarker)
  }

  /** The search settles on the first place where the pattern matches. */
  lemma {:induction false} FirstAddressAt(s: string, marker: string, i: nat)
    requires AddressAt(s, marker, i).Some?
    requires forall k: nat :: k < i ==> AddressAt(s, marker, k).None?
    ensures FirstAddress(s, marker, 0) == Some(i)
  {
  }

  /** What the address pattern captures at `i` once the marker, the
      spaces and the groups are located. */
  lemma {:induction false} AddressAtOf(s: string, marker: string, i: nat, q: nat, e: nat, w: string)
    requires OccursAtIgnoreCase(s, marker, i) && AfterMarker(s, i, marker) == q
    requires GroupsEnd(s, q, 4) == Some(e) && s[q..e] == w
    ensures AddressAt(s, marker, i) == Some(w)
  {
  }

  /** No address is found before the first marker. */
  lemma {:induction false} FirstAddressAtMarker(s: string, marker: string, i: nat)
    requires |marker| > 0 && FirstMarker(s, marker, 0) == Some(i)
    requires AddressAt(s, marker, i).Some?
    ensures FirstAddress(s, marker, 0) == Some(i)
  {
    forall k: nat | k < i ensures AddressAt(s, marker, k).None? {
      assert !OccursAtIgnoreCase(s, marker, k);
    }
    FirstAddressAt(s, marker, i);
  }

  /** A text that continues with `w` from `q` on spells out `w` there. */
  lemma {:induction false} PrefixAt(s: string, q: nat, w: string, rest: string)
    requires q <= |s| && s[q..] == w + rest
    ensures At(s, q, w) && s[q..q + |w|] == w
    ensures q + |w| < |s| ==> s[q + |w|] == rest[0]
  {
    forall k | 0 <= k < |w| ensures s[q + k] == w[k] {
      assert s[q..][k] == (w + rest)[k];
    }
    assert s[q + |w|..] == rest by {
      assert s[q + |w|..] == s[q..][|w|..];
    }
  }

  /** Once the search stands at the groups, they are what is read. */
  lemma {:induction false} AddressFound(s: string, marker: string, i: nat, q: nat, g: seq<string>, rest: string)
    requires |marker| > 0 && FirstMarker(s, marker, 0) == Some(i) && AfterMarker(s, i, marker) == q
    requires |g| == 4 && DigitGroups(g) && q <= |s| && s[q..] == Join(g, '.') + rest
    requires rest == [] || !IsDigit(rest[0])
    ensures AddressAfter(s, marker) == Join(g, '.')
  {
    var addr := Join(g, '.');
    PrefixAt(s, q, addr, rest);
    GroupsEndComplete(s, q, g);
    assert OccursAtIgnoreCase(s, marker, i);
    assert GroupsEnd(s, q, 4) == Some(q + |addr|);
    assert s[q..q + |addr|] == addr;
    assert AfterMarker(s, i, marker) == q;
    assert q <= q + |addr| <= |s|;
    AddressAtOf(s, marker, i, q, q + |addr|, addr);
    FirstAddressAtMarker(s, marker, i);
  }

  /** A line of a status text that holds the marker, in any case and
      followed by spaces and an address, is read back as that address. */
  lemma {:induction false} AddressOfLine(pre: string, tag: string, sp: string, g: seq<string>, rest: string, marker: string)
    requires ColonEnded(marker) && !ContainsIgnoreCase(pre, marker) && EqualsIgnoreCase(tag, marker)
    requires AllSpace(sp) && |g| == 4 && DigitGroups(g)
    requires rest == [] || !IsDigit(rest[0])
    ensures AddressAfter(pre + tag + sp + Join(g, '.') + rest, marker) == Join(g, '.')
  {
    var addr := Join(g, '.');
    JoinDigitLed(g);
    MarkerLine(pre, tag, sp, addr + rest, marker);
    AddressFound(pre + tag + sp + (addr + rest), marker, |pre|, |pre| + |tag| + |sp|, g, rest);
    AppendLast(pre + tag + sp, addr, rest);
  }

  lemma {:induction false} AppendLast(a: string, b: string, c: string)
    ensures a + (b + c) == a + b + c
  {
  }

  lemma {:induction false} JoinDigitLed(g: seq<string>)
    requires |g| >= 1 && DigitGroups(g)
    ensures Join(g, '.') != [] && IsDigit(Join(g, '.')[0])
  {
    if |g| > 1 {
      assert g == [g[0]] + g[1..];
      JoinCons(g[0], g[1..], '.');
    }
  }

  /** The address line of a status text is read back as the address it
      shows. */
  lemma {:induction false} IpOfLine(pre: string, tag: string, sp: string, g: seq<string>, rest: string)
    requires !ContainsIgnoreCase(pre, IpMarker) && EqualsIgnoreCase(tag, IpMarker)
    requires AllSpace(sp) && |g| == 4 && DigitGroups(g)
    requires rest == [] || !IsDigit(rest[0])
    ensures Ip(pre + tag + sp + Join(g, '.') + rest) == Join(g, '.')
  {
    MarkersColonEnded();
    AddressOfLine(pre, tag, sp, g, rest, IpMarker);
  }

  // ---------------------------------------------------------------- rotation

  const Locations: seq<string> := ["us", "ca"]

  /** `Math.floor(Math.random() * LOCATIONS.length)` for a draw of
      `Math.random`, which lies in [0, 1). */
  function RotationIndex(draw: real): (k: nat)
    requires 0.0 <= draw < 1.0
    ensures k < |Locations|
  {
    (draw * |Locations| as real).Floor
  }

  /** The lower half of the draws picks "us", the upper half "ca": both
      locations are reachable and equally likely. */
  lemma {:induction false} RotationChoice(draw: real)
    requires 0.0 <= draw < 1.0
    ensures Locations[RotationIndex(draw)] == (if draw < 0.5 then "us" else "ca")
  {
  }

  /** The commands one rotation runs: the relay change, then the reconnect
      unless the relay change failed. */
  function RotateCommands(location: string, relayOk: bool): (r: seq<seq<string>>)
    ensures |r| >= 1 && r[0] == ["mullvad", "relay", "set", "location", location]
    ensures ["mullvad", "reconnect"] in r <==> relayOk
  {
    [["mullvad", "relay", "set", "location", location]]
      + (if relayOk then [["mullvad", "reconnect"]] else [])
  }

  /** A GLib main-loop source id; GLib never hands out 0, so a stored id
      is truthy exactly when it is present. */
  type SourceId = n: nat | n > 0 witness 1

  class VpnService {
    var status: VpnStatus
    var rotating: bool
    var statusTimer: Option<SourceId>
    var rotationTimer: Option<SourceId>
    /** Commands run through `execAsync`, other than `mullvad status`. */
    var issued: seq<seq<string>>
    /** Sources passed to `GLib.source_remove`, in order. */
    var removed: seq<SourceId>

    /** A rotation timer exists exactly while rotation is on. */
    predicate Valid()
      reads this
    {
      rotating <==> rotationTimer.Some?
    }

    /** The constructor starts the five-second status timer; the first
        reading arrives later through `Refresh`. */
    constructor (timer: SourceId)
      ensures Valid()
      ensures status == Disconnected && !rotating
      ensures statusTimer == Some(timer) && rotationTimer == None
      ensures issued == [] && removed == []
    {
      status := Disconnected;
      rotating := false;
      statusTimer := Some(timer);
      rotationTimer := None;
      issued := [];
      removed := [];
    }

    /** `refresh` once `mullvad status` has answered (or thrown); the
        status timer firing is this same call. */
    method Refresh(result: Result<string>)
      modifies this
      ensures rotating == old(rotating) && rotationTimer == old(rotationTimer)
      ensures statusTimer == old(statusTimer)
      ensures issued == old(issued) && removed == old(removed)
      ensures result.Err? ==> status == Disconnected
      ensures result.Ok? ==>
                && (status.connected <==> Contains(result.value, "Connected"))
                && (status.connecting <==> Contains(result.value, "Connecting"))
                && status.location == Location(result.value)
                && status.ip == Ip(result.value)
    {
      match result
      case Err(_) =>
        status := Disconnected;
      case Ok(out) =>
        status := VpnStatus(Contains(out, "Connected"), Contains(out, "Connecting"), Location(out), Ip(out));
    }

    /** `_rotate`, given the draw of `Math.random` and whether the relay
        change succeeded. */
    method Rotate(draw: real, relayOk: bool)
      requires 0.0 <= draw < 1.0
      modifies this
      ensures issued == old(issued) + RotateCommands(Locations[RotationIndex(draw)], relayOk)
      ensures status == old(status) && rotating == old(rotating)
      ensures statusTimer == old(statusTimer) && rotationTimer == old(rotationTimer)
      ensures removed == old(removed)
    {
      var location := Locations[RotationIndex(draw)];
      issued := issued + RotateCommands(location, relayOk);
    }

    /** `_startRotation`: rotate at once, then every twenty seconds. */
    method StartRotation(draw: real, relayOk: bool, timer: SourceId)
      requires 0.0 <= draw < 1.0
      modifies this
      ensures rotating && rotationTimer == Some(timer) && Valid()
      ensures issued == old(issued) + RotateCommands(Locations[RotationIndex(draw)], relayOk)
      ensures status == old(status) && statusTimer == old(statusTimer) && removed == old(removed)
    {
      rotating := true;
      Rotate(draw, relayOk);
      rotationTimer := Some(timer);
    }

    /** `_stopRotation`: the rotation timer, if any, is removed and
        forgotten. */
    method StopRotation()
      modifies this
      ensures !rotating && rotationTimer == None && Valid()
      ensures removed == old(removed) + (if old(rotationTimer).Some? then [old(rotationTimer).value] else [])
      ensures status == old(status) && statusTimer == old(statusTimer) && issued == old(issued)
    {
      rotating := false;
      if rotationTimer.Some? {
        removed := removed + [rotationTimer.value];
        rotationTimer := None;
      }
    }

    /** `toggleRotation`: flips rotation; switching it on rotates at once
        with `draw` and `relayOk` and starts the timer `timer`. */
    method ToggleRotation(draw: real, relayOk: bool, timer: SourceId)
      requires 0.0 <= draw < 1.0 && Valid()
      modifies this
      ensures Valid() && rotating == !old(rotating)
      ensures old(rotating) ==> rotationTimer == None && issued == old(issued)
                                && removed == old(removed) + [old(rotationTimer).value]
      ensures !old(rotating) ==> rotationTimer == Some(timer) && removed == old(removed)
                                 && issued == old(issued) + RotateCommands(Locations[RotationIndex(draw)], relayOk)
      ensures status == old(status) && statusTimer == old(statusTimer)
    {
      if rotating {
        StopRotation();
      } else {
        StartRotation(draw, relayOk, timer);
      }
    }

    /** The twenty-second rotation timer firing: it rotates and stays only
        while rotation is on. */
    method RotationTimerFires(draw: real, relayOk: bool) returns (keep: bool)
      requires 0.0 <= draw < 1.0
      modifies this
      ensures keep == rotating
      ensures rotating ==> issued == old(issued) + RotateCommands(Locations[RotationIndex(draw)], relayOk)
      ensures !rotating ==> issued == old(issued)
      ensures status == old(status) && rotating == old(rotating)
      ensures statusTimer == old(statusTimer) && rotationTimer == old(rotationTimer)
      ensures removed == old(removed)
    {
      if rotating {
        Rotate(draw, relayOk);
        keep := true;
      } else {
        keep := false;
      }
    }

    /** `destroy`: removes the status timer (keeping its id) and stops
        rotation. */
    method Destroy()
      requires Valid()
      modifies this
      ensures !rotating && rotationTimer == None && Valid()
      ensures removed == old(removed)
                         + (if old(statusTimer).Some? then [old(statusTimer).value] else [])
                         + (if old(rotating) then [old(rotationTimer).value] else [])
      ensures status == old(status) && statusTimer == old(statusTimer) && issued == old(issued)
    {
      if statusTimer.Some? {
        removed := removed + [statusTimer.value];
      }
      StopRotation();
    }
  }
}
