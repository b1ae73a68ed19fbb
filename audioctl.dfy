/** The audio control service (`services/audioctl.ts`): which ALSA mixer
    controls drive the speakers and the headphones, found by parsing the
    `amixer scontrols` listing, and the mute state of a control. */
module AudioCtl {
  import opened Wrappers
  import opened Strings

  datatype ControlType = Speaker | Headphone | Unknown

  datatype AudioControl = AudioControl(name: string, kind: ControlType)

  const DefaultSpeaker := "Line Out"
  const DefaultHeadphone := "Headphone"

  /** The words a speaker control name is matched against. */
  const SpeakerWords := ["line out", "speaker", "front", "surround", "pcm", "master"]
  /** The words a headphone control name is matched against. */
  const HeadphoneWords := ["headphone", "hp"]

  // ---------------------------------------------------------------- one line

  /** What `/Simple mixer control '([^']+)'/` looks for before the name. */
  const ControlPrefix := "Simple mixer control '"

  /** Index of the first `'` in `s` at or after `i`, or |s|. */
  function QuoteFrom(s: string, i: nat): (j: nat)
    requires i <= |s|
    ensures i <= j <= |s|
    ensures j < |s| ==> s[j] == '\''
    ensures forall k :: i <= k < j ==> s[k] != '\''
    decreases |s| - i
  {
    if i == |s| || s[i] == '\'' then i else QuoteFrom(s, i + 1)
  }

  /** The pattern matches at `i`: the prefix, then one or more characters
      other than `'`, then `'`. */
  predicate MatchAt(line: string, i: nat)
  {
    && OccursAt(line, ControlPrefix, i)
    && var b := i + |ControlPrefix|;
       b < QuoteFrom(line, b) < |line|
  }

  /** The leftmost position at or after `from` where the pattern
      matches, if any. */
  function FirstMatch(line: string, from: nat): (r: Option<nat>)
    ensures r.Some? ==> from <= r.value && MatchAt(line, r.value)
    ensures forall k: nat :: from <= k && (r.None? || k < r.value) ==> !MatchAt(line, k)
    decreases |line| - from
  {
    if from + |ControlPrefix| > |line| then None
    else if MatchAt(line, from) then Some(from)
    else FirstMatch(line, from + 1)
  }

  /** The name captured by the leftmost match in `line`, if any. */
  function ControlName(line: string): (r: Option<string>)
    ensures r.None? ==> forall i: nat :: !MatchAt(line, i)
    ensures r.Some? ==> r.value != [] && '\'' !in r.value
    ensures r.Some? ==>
      && FirstMatch(line, 0).Some?
      && var b := FirstMatch(line, 0).value + |ControlPrefix|;
         && b + |r.value| < |line|
         && line[b..b + |r.value|] == r.value
         && line[b + |r.value|] == '\''
  {
    match FirstMatch(line, 0)
    case None => None
    case Some(i) =>
      var b := i + |ControlPrefix|;
      var e := QuoteFrom(line, b);
      assert forall k :: 0 <= k < e - b ==> line[b..e][k] == line[b + k];
      Some(line[b..e])
  }

  /** A line that starts with the prefix, then a quote-free name and a
      quote, yields that name. */
  lemma {:induction false} NameOfLine(name: string, rest: string)
    requires '\'' !in name && name != []
    ensures ControlName(ControlPrefix + name + "'" + rest) == Some(name)
  {
    var t := name + "'" + rest;
    var s := ControlPrefix + t;
    assert s == ControlPrefix + name + "'" + rest;
    var b := |ControlPrefix|;
    assert s[..b] == ControlPrefix;
    assert s[b..] == t;
    assert forall k :: 0 <= k < |name| ==> t[k] == name[k];
    assert t[|name|] == '\'';
    assert QuoteFrom(s, b) == b + |name|;
    assert t[..|name|] == name;
    assert s[b..b + |name|] == name;
    assert MatchAt(s, 0);
  }

  // ---------------------------------------------------------------- classification

  /** `/headphone|hp/i.test(name)` */
  predicate HeadphoneLike(name: string)
  {
    exists k :: 0 <= k < |HeadphoneWords| && ContainsIgnoreCase(name, HeadphoneWords[k])
  }

  /** `/line out|speaker|front|surround|pcm|master/i.test(name)` */
  predicate SpeakerLike(name: string)
  {
    exists k :: 0 <= k < |SpeakerWords| && ContainsIgnoreCase(name, SpeakerWords[k])
  }

  /** The type `_parseControls` gives a control: headphone words win over
      speaker words. */
  function Classify(name: string): (t: ControlType)
    ensures t == Headphone <==> HeadphoneLike(name)
    ensures t == Speaker <==> !HeadphoneLike(name) && SpeakerLike(name)
  {
    if HeadphoneLike(name) then Headphone
    else if SpeakerLike(name) then Speaker
    else Unknown
  }

  function Control(name: string): AudioControl
  {
    AudioControl(name, Classify(name))
  }

  // ---------------------------------------------------------------- the listing

  /** The controls of `lines`, one per line that matches, in line order. */
  function Parsed(lines: seq<string>): (cs: seq<AudioControl>)
    ensures |cs| <= |lines|
  {
    if lines == [] then []
    else
      match ControlName(lines[0])
      case Some(name) => [Control(name)] + Parsed(lines[1..])
      case None => Parsed(lines[1..])
  }

  /** Parsing is line by line: the controls of two blocks of lines are
      those of the first block followed by those of the second. */
  lemma {:induction false} ParsedAppend(a: seq<string>, b: seq<string>)
    ensures Parsed(a + b) == Parsed(a) + Parsed(b)
    decreases |a|
  {
    if a != [] {
      assert (a + b)[0] == a[0];
      assert (a + b)[1..] == a[1..] + b;
      ParsedAppend(a[1..], b);
    } else {
      assert a + b == b;
    }
  }

  /** `_parseControls`: the loop over the lines of `output`. */
  method ParseControls(output: string) returns (controls: seq<AudioControl>)
    ensures controls == Parsed(Split(output, '\n'))
  {
    var lines := Split(output, '\n');
    controls := [];
    var i := 0;
    while i < |lines|
      invariant 0 <= i <= |lines|
      invariant controls == Parsed(lines[..i])
    {
      ParsedAppend(lines[..i], [lines[i]]);
      assert lines[..i + 1] == lines[..i] + [lines[i]];
      match ControlName(lines[i]) {
        case Some(name) =>
          controls := controls + [Control(name)];
        case None =>
      }
      i := i + 1;
    }
    assert lines[..i] == lines;
  }

  /** The line `amixer scontrols` prints for a control. */
  function Entry(name: string): string
  {
    ControlPrefix + name + "',0"
  }

  /** The listing lines of `names`, one each, in order. */
  function Entries(names: seq<string>): (lines: seq<string>)
    ensures |lines| == |names|
    ensures forall k :: 0 <= k < |names| ==> lines[k] == Entry(names[k])
  {
    if names == [] then [] else [Entry(names[0])] + Entries(names[1..])
  }

  /** The controls named by `names`, in order. */
  function Controls(names: seq<string>): (cs: seq<AudioControl>)
    ensures |cs| == |names|
    ensures forall k :: 0 <= k < |names| ==> cs[k].name == names[k] && cs[k] == Control(names[k])
  {
    if names == [] then [] else [Control(names[0])] + Controls(names[1..])
  }

  /** The output of `amixer scontrols` for a card with controls `names`. */
  function Listing(names: seq<string>): string
  {
    Join(Entries(names), '\n')
  }

  predicate PlainName(name: string)
  {
    name != [] && '\'' !in name && '\n' !in name
  }

  lemma {:induction false} ParsedEntries(names: seq<string>)
    requires forall k :: 0 <= k < |names| ==> PlainName(names[k])
    ensures Parsed(Entries(names)) == Controls(names)
    decreases |names|
  {
    if names != [] {
      var lines := Entries(names);
      assert lines[1..] == Entries(names[1..]);
      assert Entry(names[0]) == ControlPrefix + names[0] + "'" + ",0";
      NameOfLine(names[0], ",0");
      ParsedEntries(names[1..]);
    }
  }

  /** Parsing the listing of a list of names gives back one control per
      name, in the same order, each with that name. */
  lemma {:induction false} ParseListing(names: seq<string>)
    requires forall k :: 0 <= k < |names| ==> PlainName(names[k])
    ensures Parsed(Split(Listing(names), '\n')) == Controls(names)
  {
    var lines := Entries(names);
    if names == [] {
      SplitWithout("", '\n');
      assert ControlName("") == None;
    } else {
      forall p | p in lines
        ensures '\n' !in p
      {
        var k :| 0 <= k < |lines| && lines[k] == p;
        assert p == ControlPrefix + names[k] + "',0";
      }
      SplitJoin(lines, '\n');
      ParsedEntries(names);
    }
  }

  // ---------------------------------------------------------------- selection

  /** `/^(line out|speaker|front|surround|pcm|master)$/i.test(name)` */
  predicate SpeakerName(name: string)
  {
    exists k :: 0 <= k < |SpeakerWords| && EqualsIgnoreCase(name, SpeakerWords[k])
  }

  /** `/^(headphone|hp)$/i.test(name)` */
  predicate HeadphoneName(name: string)
  {
    exists k :: 0 <= k < |HeadphoneWords| && EqualsIgnoreCase(name, HeadphoneWords[k])
  }

  /** The name of the first control whose name satisfies `p`, or
      `default` when there is none. */
  function FirstName(controls: seq<AudioControl>, p: string -> bool, default: string): (r: string)
    ensures r == default || exists k :: 0 <= k < |controls| && controls[k].name == r && p(r)
    ensures (forall k :: 0 <= k < |controls| ==> !p(controls[k].name)) ==> r == default
    ensures forall k :: 0 <= k < |controls| && p(controls[k].name) ==>
              exists j :: 0 <= j <= k && r == controls[j].name && p(r)
  {
    if controls == [] then default
    else if p(controls[0].name) then controls[0].name
    else
      var r := FirstName(controls[1..], p, default);
      assert forall k :: 1 <= k < |controls| ==> controls[k] == controls[1..][k - 1];
      r
  }

  function SpeakerChoice(controls: seq<AudioControl>): string
  {
    FirstName(controls, SpeakerName, DefaultSpeaker)
  }

  function HeadphoneChoice(controls: seq<AudioControl>): string
  {
    FirstName(controls, HeadphoneName, DefaultHeadphone)
  }

  /** A name equal, ignoring case, to a word with no `h` holds no `h`. */
  lemma {:induction false} NoHOf(name: string, w: string)
    requires EqualsIgnoreCase(name, w)
    requires forall j :: 0 <= j < |w| ==> Lower(w[j]) != 'h'
    ensures !HeadphoneLike(name)
  {
    forall k, i | 0 <= k < |HeadphoneWords| && 0 <= i <= |name| - |HeadphoneWords[k]|
      ensures !OccursAtIgnoreCase(name, HeadphoneWords[k], i)
    {
      assert HeadphoneWords[k][0] == 'h';
      assert Lower(name[i]) == Lower(w[i]);
    }
  }

  /** A name chosen as the speaker control is classified as a speaker, and
      one chosen as the headphone control as a headphone: whole-name
      selection agrees with the per-control classification. */
  lemma {:induction false} ChoiceAgreesWithClass(name: string)
    ensures SpeakerName(name) ==> Classify(name) == Speaker
    ensures HeadphoneName(name) ==> Classify(name) == Headphone
  {
    if SpeakerName(name) {
      var k :| 0 <= k < |SpeakerWords| && EqualsIgnoreCase(name, SpeakerWords[k]);
      var w := SpeakerWords[k];
      assert forall j :: 0 <= j < |w| ==> Lower(w[j]) == w[j] != 'h';
      NoHOf(name, w);
      assert OccursAtIgnoreCase(name, w, 0);
    }
    if HeadphoneName(name) {
      var k :| 0 <= k < |HeadphoneWords| && EqualsIgnoreCase(name, HeadphoneWords[k]);
      assert OccursAtIgnoreCase(name, HeadphoneWords[k], 0);
    }
  }

  // ---------------------------------------------------------------- control state

  /** The `amixer` query `getControlState` runs. */
  function GetCommand(control: string, card: string): seq<string>
  {
    ["amixer", "-c", card, "sget", control]
  }

  /** The `amixer` command `setControlState` runs. */
  function SetCommand(control: string, card: string, on: bool): (cmd: seq<string>)
    ensures |cmd| == 6 && cmd[..5] == ["amixer", "-c", card, "sset", control]
    ensures cmd[5] == "unmute" <==> on
    ensures cmd[5] == "mute" <==> !on
  {
    ["amixer", "-c", card, "sset", control, if on then "unmute" else "mute"]
  }

  /** `getControlState` given the outcome of the query: on when the output
      holds `[on]`, off when it does not or the query failed. */
  function ControlState(query: Result<string>): (on: bool)
    ensures on <==> query.Ok? && exists i :: OccursAt(query.value, "[on]", i)
  {
    ContainsIff(if query.Ok? then query.value else "", "[on]");
    query.Ok? && Contains(query.value, "[on]")
  }

  // ---------------------------------------------------------------- the service

  class AudioControlService {
    var speakerControl: string
    var headphoneControl: string
    var initialized: bool

    /** A new service holds the defaults; discovery finishes later. */
    constructor ()
      ensures speakerControl == DefaultSpeaker && headphoneControl == DefaultHeadphone
      ensures !initialized
    {
      speakerControl := DefaultSpeaker;
      headphoneControl := DefaultHeadphone;
      initialized := false;
    }

    /** `_discoverControls`, given the outcome of `amixer scontrols`. A
        role with no whole-name match keeps its current control, and the
        service is initialized whether the listing came or not. */
    method Discover(listing: Result<string>)
      modifies this
      ensures initialized
      ensures listing.Err? ==>
                speakerControl == old(speakerControl) && headphoneControl == old(headphoneControl)
      ensures listing.Ok? ==>
                var cs := Parsed(Split(listing.value, '\n'));
                && speakerControl == FirstName(cs, SpeakerName, old(speakerControl))
                && headphoneControl == FirstName(cs, HeadphoneName, old(headphoneControl))
    {
      if listing.Ok? {
        var controls := ParseControls(listing.value);
        speakerControl := FirstName(controls, SpeakerName, speakerControl);
        headphoneControl := FirstName(controls, HeadphoneName, headphoneControl);
      }
      initialized := true;
    }
  }

  /** `FirstName` over the controls of a list of names picks the first
      name that satisfies `p`. */
  lemma {:induction false} ChoiceOfNames(names: seq<string>, p: string -> bool, default: string)
    ensures var r := FirstName(Controls(names), p, default);
            && (r == default || exists k :: 0 <= k < |names| && r == names[k] && p(names[k]))
            && (forall k :: 0 <= k < |names| && p(names[k]) ==> exists j :: 0 <= j <= k && r == names[j])
  {
    var cs := Controls(names);
    assert forall k :: 0 <= k < |names| ==> cs[k].name == names[k];
  }

  /** A new service that discovers a listing of plain names ends up with
      the first whole-name speaker match, else "Line Out", and the first
      whole-name headphone match, else "Headphone". */
  method DiscoveredFromListing(names: seq<string>) returns (svc: AudioControlService)
    requires forall k :: 0 <= k < |names| ==> PlainName(names[k])
    ensures svc.initialized
    ensures svc.speakerControl == DefaultSpeaker
            || exists k :: 0 <= k < |names| && svc.speakerControl == names[k] && SpeakerName(names[k])
    ensures svc.headphoneControl == DefaultHeadphone
            || exists k :: 0 <= k < |names| && svc.headphoneControl == names[k] && HeadphoneName(names[k])
    ensures forall k :: 0 <= k < |names| && SpeakerName(names[k]) ==>
              exists j :: 0 <= j <= k && svc.speakerControl == names[j]
    ensures forall k :: 0 <= k < |names| && HeadphoneName(names[k]) ==>
              exists j :: 0 <= j <= k && svc.headphoneControl == names[j]
  {
    svc := new AudioControlService();
    ParseListing(names);
    svc.Discover(Ok(Listing(names)));
    ChoiceOfNames(names, SpeakerName, DefaultSpeaker);
    ChoiceOfNames(names, HeadphoneName, DefaultHeadphone);
  }
}
