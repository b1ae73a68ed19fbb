/** The ProxyForge service (`services/proxyforge.ts`): whether the
    mitmproxy-based interceptor runs in eBPF local mode, and switching it
    on and off. */
module ProxyForge {
  import opened Wrappers

  datatype ProxyStatus = Active | Starting | Stopping | Off

  /** A GLib main-loop source id; GLib never hands out 0. */
  type SourceId = n: nat | n > 0 witness 1

  /** The targets used when `PROXYFORGE_TARGETS` is unset or empty. */
  const DefaultTargets := "claude,codex,node"

  const ModePrefix := "local:"

  /** The `pgrep`/`pkill` pattern: a `mitmdump` command line in local
      mode. */
  const ProcessPattern := "mitmdump.*local:"

  function FlagFile(home: string): string
  {
    home + "/.cache/proxyforge-enabled"
  }

  function ScriptPath(home: string): string
  {
    home + "/dev/proxyforge/proxyforge.py"
  }

  /** `GLib.getenv("PROXYFORGE_TARGETS") || "claude,codex,node"`: an unset
      or empty variable falls back to the default. */
  function Targets(env: Option<string>): (t: string)
    ensures t != []
    ensures env.Some? && env.value != [] ==> t == env.value
    ensures env.None? || env.value == [] ==> t == DefaultTargets
  {
    match env
    case Some(v) => if v != [] then v else DefaultTargets
    case None => DefaultTargets
  }

  /** The `--mode` argument of the start command. */
  function ModeArg(targets: string): string
  {
    ModePrefix + targets
  }

  /** The mode argument names local mode, and the targets read back from
      it are the ones passed in. */
  lemma {:induction false} ModeArgTargets(targets: string)
    ensures ModeArg(targets)[..|ModePrefix|] == ModePrefix
    ensures ModeArg(targets)[|ModePrefix|..] == targets
  {
  }

  /** Distinct targets give distinct mode arguments. */
  lemma {:induction false} ModeArgInjective(a: string, b: string)
    requires ModeArg(a) == ModeArg(b)
    ensures a == b
  {
    ModeArgTargets(a);
    ModeArgTargets(b);
  }

  function Notification(body: string): seq<string>
  {
    ["notify-send", "ProxyForge", body]
  }

  /** The commands `toggle` runs to stop the proxy. */
  function StopCommands(home: string): (r: seq<seq<string>>)
    ensures |r| == 2 && |r[0]| == 3 && |r[1]| == 3
    ensures r[0][0] == "pkill" && r[0][2] == ProcessPattern
    ensures r[1][0] == "rm" && r[1][2] == FlagFile(home)
  {
    [["pkill", "-f", ProcessPattern], ["rm", "-f", FlagFile(home)]]
  }

  /** The commands `toggle` runs to start the proxy. */
  function StartCommands(home: string, targets: string): (r: seq<seq<string>>)
    ensures |r| == 2 && r[0] == ["touch", FlagFile(home)]
    ensures |r[1]| == 5 && r[1][..3] == ["pkexec", "python3", ScriptPath(home)]
    ensures |r[1][4]| >= |ModePrefix| && r[1][4][..|ModePrefix|] == ModePrefix && r[1][4][|ModePrefix|..] == targets
  {
    ModeArgTargets(targets);
    [["touch", FlagFile(home)], ["pkexec", "python3", ScriptPath(home), "--mode", ModeArg(targets)]]
  }

  /** Stopping undoes starting: it removes the flag file that starting
      creates, and kills the processes whose command line ends in the
      local-mode prefix that the started proxy's mode argument begins with. */
  lemma {:induction false} StopUndoesStart(home: string, targets: string)
    ensures StopCommands(home)[1][2] == StartCommands(home, targets)[0][1]
    ensures var launch := StartCommands(home, targets)[1];
            var pattern := StopCommands(home)[0][2];
            pattern[|pattern| - |ModePrefix|..] == launch[4][..|ModePrefix|]
  {
    var pattern := StopCommands(home)[0][2];
    assert pattern == ProcessPattern;
    assert ProcessPattern[|ProcessPattern| - |ModePrefix|..] == ModePrefix;
  }

  /** What a `try` block that awaits `cmds` in order and then sends
      `notice` runs when the first `succeeded` commands succeed and the
      next one throws: the commands up to and including the failing one,
      and the notice only when none failed. */
  function Attempt(cmds: seq<seq<string>>, succeeded: nat, notice: seq<string>): (run: seq<seq<string>>)
    ensures |run| == (if succeeded >= |cmds| then |cmds| + 1 else succeeded + 1)
    ensures forall k :: 0 <= k < |run| && k < |cmds| ==> run[k] == cmds[k]
    ensures succeeded >= |cmds| ==> run[|cmds|] == notice
  {
    if succeeded >= |cmds| then cmds + [notice] else cmds[..succeeded + 1]
  }

  /** A command runs only after every command before it succeeded, and
      the notice goes out exactly when all of them did. */
  lemma {:induction false} AttemptOrder(cmds: seq<seq<string>>, succeeded: nat, notice: seq<string>)
    requires notice !in cmds
    ensures var run := Attempt(cmds, succeeded, notice);
            && |run| == (if succeeded >= |cmds| then |cmds| + 1 else succeeded + 1)
            && (forall k :: 0 <= k < |run| && k < |cmds| ==> run[k] == cmds[k])
            && (notice in run <==> succeeded >= |cmds|)
  {
    var run := Attempt(cmds, succeeded, notice);
    if succeeded < |cmds| {
      assert forall k :: 0 <= k < |run| ==> run[k] == cmds[k] && cmds[k] in cmds;
    } else {
      assert run[|cmds|] == notice;
    }
  }

  /** The status `refresh` settles on: active while the local-mode process
      runs, else starting while the flag file exists, else off. */
  function Observed(running: bool, flagExists: bool): (s: ProxyStatus)
    ensures s != Stopping
    ensures s == Active <==> running
    ensures s == Off <==> !running && !flagExists
  {
    if running then Active else if flagExists then Starting else Off
  }

  /** The status `toggle` sets before it runs any command. */
  function Toggled(s: ProxyStatus): (r: ProxyStatus)
    ensures r != s
    ensures r == Stopping <==> s == Active || s == Starting
    ensures s == Off || s == Stopping ==> r == Starting
  {
    if s == Active || s == Starting then Stopping else Starting
  }

  /** A toggle always changes the status; a proxy that is up or coming up
      is taken down, any other is brought up, and further toggles before a
      refresh alternate between starting and stopping. */
  lemma {:induction false} ToggledChanges(s: ProxyStatus)
    ensures Toggled(Toggled(Toggled(s))) == Toggled(s) != Toggled(Toggled(s))
  {
  }

  class ProxyForgeService {
    var status: ProxyStatus
    var statusTimer: Option<SourceId>
    /** Commands run through `execAsync`, other than the `pgrep` probe. */
    var issued: seq<seq<string>>
    /** The status at each `_notify`, in order: what subscribers saw. */
    var shown: seq<ProxyStatus>
    /** One-shot refresh timers scheduled by `toggle` and not yet fired. */
    var pendingRefreshes: nat
    /** Sources passed to `GLib.source_remove`, in order. */
    var removed: seq<SourceId>

    /** The constructor starts the two-second status timer; the first
        reading arrives later through `Refresh`. */
    constructor (timer: SourceId)
      ensures status == Off && statusTimer == Some(timer)
      ensures issued == [] && shown == [] && pendingRefreshes == 0 && removed == []
    {
      status := Off;
      statusTimer := Some(timer);
      issued := [];
      shown := [];
      pendingRefreshes := 0;
      removed := [];
    }

    /** `refresh`, given whether `pgrep` found the local-mode process and
        whether the flag file exists; the status timer firing is this same
        call. */
    method Refresh(running: bool, flagExists: bool)
      modifies this
      ensures status == Observed(running, flagExists) && status != Stopping
      ensures shown == old(shown) + [status]
      ensures issued == old(issued) && pendingRefreshes == old(pendingRefreshes)
      ensures statusTimer == old(statusTimer) && removed == old(removed)
    {
      if running {
        status := Active;
      } else if flagExists {
        status := Starting;
      } else {
        status := Off;
      }
      shown := shown + [status];
    }

    /** `toggle`, for the home directory, the value of
        `PROXYFORGE_TARGETS`, and how many of its two commands succeed
        before one throws. Subscribers see the new status before any
        command runs, and a refresh is scheduled one second later. */
    method Toggle(home: string, env: Option<string>, succeeded: nat)
      modifies this
      ensures status == Toggled(old(status)) && shown == old(shown) + [status]
      ensures old(status) in {Active, Starting} ==>
                issued == old(issued)
                          + Attempt(StopCommands(home), succeeded, Notification("eBPF interception stopped"))
      ensures old(status) in {Off, Stopping} ==>
                issued == old(issued)
                          + Attempt(StartCommands(home, Targets(env)), succeeded,
                                    Notification("eBPF intercepting: " + Targets(env)))
      ensures pendingRefreshes == old(pendingRefreshes) + 1
      ensures statusTimer == old(statusTimer) && removed == old(removed)
    {
      if status == Active || status == Starting {
        status := Stopping;
        shown := shown + [status];
        issued := issued + Attempt(StopCommands(home), succeeded, Notification("eBPF interception stopped"));
      } else {
        var targets := Targets(env);
        status := Starting;
        shown := shown + [status];
        issued := issued + Attempt(StartCommands(home, targets), succeeded, Notification("eBPF intercepting: " + targets));
      }
      pendingRefreshes := pendingRefreshes + 1;
    }

    /** The refresh timer scheduled by `toggle` firing: the status it
        leaves comes from the probe, never from the toggle. */
    method RefreshFires(running: bool, flagExists: bool)
      requires pendingRefreshes > 0
      modifies this
      ensures pendingRefreshes == old(pendingRefreshes) - 1
      ensures status == Observed(running, flagExists) && shown == old(shown) + [status]
      ensures issued == old(issued) && statusTimer == old(statusTimer) && removed == old(removed)
    {
      pendingRefreshes := pendingRefreshes - 1;
      Refresh(running, flagExists);
    }

    /** `destroy`: removes the status timer when there is one; the stored
        id is not cleared. */
    method Destroy()
      modifies this
      ensures removed == old(removed) + (if old(statusTimer).Some? then [old(statusTimer).value] else [])
      ensures status == old(status) && statusTimer == old(statusTimer) && issued == old(issued)
      ensures shown == old(shown) && pendingRefreshes == old(pendingRefreshes)
    {
      if statusTimer.Some? {
        removed := removed + [statusTimer.value];
      }
    }
  }
}
