/** The audio output widget (`widgets/Audio.tsx`): reads whether the
    "Line Out" and "Headphone" mixer controls are on, shows the resulting
    mode, and cycles speakers, headphones and both on click. */
module Audio {
  import opened Wrappers
  import opened Strings

  datatype AudioMode = Speakers | Headphones | Both | Muted

  const LineOut := "Line Out"
  const HeadphoneControl := "Headphone"

  /** `GLib.getenv("AUDIO_CARD") || "3"` */
  function Card(env: Option<string>): (card: string)
    ensures card != []
    ensures env.Some? && env.value != [] ==> card == env.value
    ensures env.None? || env.value == [] ==> card == "3"
  {
    if env.Some? && env.value != [] then env.value else "3"
  }

  // ---------------------------------------------------------------- modes

  /** The speakers are on in this mode. */
  predicate SpeakersOn(m: AudioMode)
  {
    m == Speakers || m == Both
  }

  /** The headphones are on in this mode. */
  predicate HeadphonesOn(m: AudioMode)
  {
    m == Headphones || m == Both
  }

  /** The mode `refresh` derives from which outputs are on. */
  function ModeOf(lineOutOn: bool, headphoneOn: bool): (m: AudioMode)
    ensures SpeakersOn(m) == lineOutOn && HeadphonesOn(m) == headphoneOn
  {
    if lineOutOn && headphoneOn then Both
    else if lineOutOn then Speakers
    else if headphoneOn then Headphones
    else Muted
  }

  /** A mode is exactly a pair of on/off outputs: the derivation and the
      pair of predicates are inverse to each other. */
  lemma {:induction false} ModeOfInverse(m: AudioMode, a: bool, b: bool)
    ensures ModeOf(SpeakersOn(m), HeadphonesOn(m)) == m
    ensures SpeakersOn(ModeOf(a, b)) == a && HeadphonesOn(ModeOf(a, b)) == b
  {
  }

  /** Whether an `amixer sget` answer shows the control on; a query that
      throws counts as the empty answer, so as off. */
  function IsOn(answer: Result<string>): (on: bool)
    ensures answer.Err? ==> !on
    ensures on <==> answer.Ok? && exists i :: OccursAt(answer.value, "[on]", i)
  {
    var text := if answer.Ok? then answer.value else "";
    ContainsIff(text, "[on]");
    Contains(text, "[on]")
  }

  /** The mode `refresh` sets from the two answers. */
  function Observed(lineOut: Result<string>, headphone: Result<string>): (m: AudioMode)
    ensures SpeakersOn(m) == IsOn(lineOut) && HeadphonesOn(m) == IsOn(headphone)
    ensures lineOut.Err? && headphone.Err? ==> m == Muted
  {
    ModeOf(IsOn(lineOut), IsOn(headphone))
  }

  /** `toggle`'s cycle: speakers, headphones, both, speakers again; muted
      goes to speakers. */
  function Next(m: AudioMode): (n: AudioMode)
    ensures n != Muted && n != m
    ensures SpeakersOn(n) || HeadphonesOn(n)
  {
    match m
    case Speakers => Headphones
    case Headphones => Both
    case _ => Speakers
  }

  /** Toggling never mutes, three toggles come back to any unmuted mode,
      and every toggle changes the mode. */
  lemma {:induction false} NextCycle(m: AudioMode)
    ensures Next(m) != Muted && Next(m) != m
    ensures m != Muted ==> Next(Next(Next(m))) == m
    ensures m == Muted ==> Next(m) == Speakers
  {
  }

  // ---------------------------------------------------------------- commands

  function QueryCommand(card: string, control: string): seq<string>
  {
    ["amixer", "-c", card, "sget", control]
  }

  function SetCommand(card: string, control: string, on: bool): seq<string>
  {
    ["amixer", "-c", card, "sset", control, if on then "on" else "off"]
  }

  /** The commands `toggle` runs for the mode it switches to. */
  function ModeCommands(card: string, m: AudioMode): (cmds: seq<seq<string>>)
    requires m != Muted
  {
    match m
    case Speakers => [SetCommand(card, LineOut, true), SetCommand(card, HeadphoneControl, false)]
    case Headphones => [SetCommand(card, LineOut, false), SetCommand(card, HeadphoneControl, true)]
    case Both => [SetCommand(card, LineOut, true), SetCommand(card, HeadphoneControl, true)]
  }

  /** The commands switch the line out to the mode's speaker state and the
      headphones to its headphone state, in that order. */
  lemma {:induction false} ModeCommandsSet(card: string, m: AudioMode)
    requires m != Muted
    ensures ModeCommands(card, m) == [SetCommand(card, LineOut, SpeakersOn(m)),
                                      SetCommand(card, HeadphoneControl, HeadphonesOn(m))]
  {
  }

  /** After the toggle's commands take effect, so that the query of a
      control switched on shows `[on]` and that of one switched off does
      not, the next refresh reads back the mode the toggle chose. */
  lemma {:induction false} ToggleReadBack(m: AudioMode, on: string, off: string)
    requires exists i :: OccursAt(on, "[on]", i)
    requires forall i :: !OccursAt(off, "[on]", i)
    ensures Observed(Ok(if SpeakersOn(Next(m)) then on else off),
                     Ok(if HeadphonesOn(Next(m)) then on else off)) == Next(m)
  {
    ModeOfInverse(Next(m), true, true);
  }

  // ---------------------------------------------------------------- presentation

  /** A symbolic icon of the audio family. */
  function Icon(m: AudioMode): (r: string)
    ensures |r| > 15 && r[..6] == "audio-" && r[|r| - 9..] == "-symbolic"
  {
    match m
    case Speakers => "audio-speakers-symbolic"
    case Headphones => "audio-headphones-symbolic"
    case Both => "audio-card-symbolic"
    case Muted => "audio-volume-muted-symbolic"
  }

  /** The tooltip names exactly the outputs that are on. */
  function Tooltip(m: AudioMode): (r: string)
    ensures SpeakersOn(m) <==> |r| >= 8 && r[..8] == "Speakers"
    ensures HeadphonesOn(m) <==> exists i :: OccursAt(r, "Headphones", i)
  {
    match m
    case Speakers =>
      WithoutH("Speakers only");
      "Speakers only"
    case Headphones =>
      assert "Headphones only"[0] != 'S';
      assert OccursAt("Headphones only", "Headphones", 0);
      "Headphones only"
    case Both =>
      assert OccursAt("Speakers + Headphones", "Headphones", 11);
      "Speakers + Headphones"
    case Muted =>
      assert "Audio muted"[0] != 'S';
      WithoutH("Audio muted");
      "Audio muted"
  }

  lemma {:induction false} WithoutH(s: string)
    requires 'H' !in s
    ensures forall i :: !OccursAt(s, "Headphones", i)
  {
    forall i
      ensures !OccursAt(s, "Headphones", i)
    {
      if 0 <= i && i + 10 <= |s| {
        assert s[i] in s;
        assert s[i..i + 10][0] == s[i];
      }
    }
  }

  /** Different modes show different icons and different tooltips. */
  lemma {:induction false} PresentationInjective(m: AudioMode, n: AudioMode)
    ensures Icon(m) == Icon(n) ==> m == n
    ensures Tooltip(m) == Tooltip(n) ==> m == n
  {
    if m != n {
      var a, b := Icon(m), Icon(n);
      assert |a| != |b|;
      var t, u := Tooltip(m), Tooltip(n);
      assert t[0] != u[0] || |t| != |u|;
    }
  }

  // ---------------------------------------------------------------- the widget

  /** A GLib main-loop source id; GLib never hands out 0. */
  type SourceId = n: nat | n > 0 witness 1

  class AudioWidget {
    const card: string
    var mode: AudioMode
    var icon: string
    var timer: SourceId
    /** Commands run through `execAsync`, in order. */
    var issued: seq<seq<string>>
    /** Sources passed to `GLib.source_remove`, in order. */
    var removed: seq<SourceId>

    /** The icon always shows the mode. */
    predicate Valid()
      reads this
    {
      icon == Icon(mode)
    }

    /** The widget starts on speakers, reads `AUDIO_CARD`, and starts the
        two-second poll; its first reading arrives through `Refresh`. */
    constructor (env: Option<string>, poll: SourceId)
      ensures Valid() && mode == Speakers && icon == "audio-speakers-symbolic"
      ensures card == Card(env) && timer == poll && issued == [] && removed == []
    {
      card := Card(env);
      mode := Speakers;
      icon := "audio-speakers-symbolic";
      timer := poll;
      issued := [];
      removed := [];
    }

    /** `refresh` (and each poll), given the answers to the two queries. */
    method Refresh(lineOut: Result<string>, headphone: Result<string>)
      requires Valid()
      modifies this
      ensures Valid() && mode == Observed(lineOut, headphone)
      ensures issued == old(issued) + [QueryCommand(card, LineOut), QueryCommand(card, HeadphoneControl)]
      ensures timer == old(timer) && removed == old(removed)
    {
      issued := issued + [QueryCommand(card, LineOut), QueryCommand(card, HeadphoneControl)];
      var lineOutOn := IsOn(lineOut);
      var headphoneOn := IsOn(headphone);
      var newMode: AudioMode;
      if lineOutOn && headphoneOn {
        newMode := Both;
      } else if lineOutOn {
        newMode := Speakers;
      } else if headphoneOn {
        newMode := Headphones;
      } else {
        newMode := Muted;
      }
      mode := newMode;
      icon := Icon(newMode);
    }

    /** `toggle`: both commands of the next mode run, each failure ignored,
        and the mode and icon move on either way. */
    method Toggle()
      requires Valid()
      modifies this
      ensures Valid() && mode == Next(old(mode)) && mode != Muted
      ensures issued == old(issued) + ModeCommands(card, mode)
      ensures timer == old(timer) && removed == old(removed)
    {
      var newMode: AudioMode;
      match mode {
        case Speakers => newMode := Headphones;
        case Headphones => newMode := Both;
        case _ => newMode := Speakers;
      }
      match newMode {
        case Speakers =>
          issued := issued + [SetCommand(card, LineOut, true)];
          issued := issued + [SetCommand(card, HeadphoneControl, false)];
        case Headphones =>
          issued := issued + [SetCommand(card, LineOut, false)];
          issued := issued + [SetCommand(card, HeadphoneControl, true)];
        case Both =>
          issued := issued + [SetCommand(card, LineOut, true)];
          issued := issued + [SetCommand(card, HeadphoneControl, true)];
      }
      mode := newMode;
      icon := Icon(newMode);
    }

    /** The cleanup handler: removes the poll. */
    method Cleanup()
      modifies this
      ensures removed == old(removed) + [timer] && timer == old(timer)
      ensures mode == old(mode) && icon == old(icon) && issued == old(issued)
    {
      removed := removed + [timer];
    }
  }
}
