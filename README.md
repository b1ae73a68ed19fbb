# bartender, modelled in Dafny

bartender is a desktop status bar written in TypeScript for the GJS runtime.
Its services poll external commands and web APIs and keep the state the bar shows:
an RSS feed ticker that picks a weighted random article every few seconds,
a JSON-with-comments configuration file that is overlaid on built-in defaults,
status indicators for a ComfyUI server, a Mullvad VPN, a ProxyForge proxy and the sound card,
a weather reading from the US National Weather Service, a notification panel and a CPU/memory monitor.

This project models the logic of those services and widgets and proves what it promises:

- **Feed** (`feed.dfy`): item parsing, link extraction and validation, the cumulative-weight roulette, and the service's state.
- **Config** (`config.dfy`): comment stripping, validation of the user's file against the defaults, `isEnabled`, and the reload filter. The shallow copy of `DEFAULT_CONFIG` is reproduced with heap objects. The stale-default bug it causes is a finding, and a pure loader states the intended behaviour.
- **ComfyUI** (`comfyui.dfy`): shell quoting, proved against the quote-removal rules of section 2.2 of POSIX.1-2017 Shell Command Language. Also the `nvidia-smi pmon` parser and GPU percentage, the pid check, the start-command fallbacks, and the toggle/refresh state machine.
- **Vpn** (`vpn.dfy`): parsing of `mullvad status`, and the rotation flag with its timer handle.
- **ProxyForge** (`proxyforge.dfy`): status derivation, the toggle transitions, and the targets argument.
- **AudioCtl** (`audioctl.dfy`): the `amixer scontrols` parser, speaker/headphone control selection, and control state.
- **Weather** (`weather.dfy`): derivation of the weather data from the API replies, and the success/error state.
- **WidgetRegistry** (`widget_registry.dfy`): the memoising widget loader, and the registry's names. A finding covers inherited property names.
- **Audio** (`audio.dfy`): the output-mode derivation, the toggle cycle and its commands, and icons and tooltips.
- **NotificationPanel** (`notification_panel.dfy`): the visibility toggle and its listeners, relative-time labels, urgency classes, grouping by application, and the collapse rule.
- **SystemMonitor** (`system_monitor.dfy`): the `/proc/stat` CPU sampler with its previous counters, the `/proc/meminfo` reader, percentages, and level classes.

Three support modules hold shared definitions:

- `Wrappers` holds `Option` and `Result`.
- `JsRuntime` holds what the JavaScript runtime itself provides: `Math.round`, and the property names every object inherits from `Object.prototype`.
- `Strings` holds the JavaScript string operations the services use, with their JavaScript semantics: `trim`, `split`, `indexOf`/`includes`, `parseInt`, whitespace splitting, ASCII case folding and decimal printing.

External commands, environment variables, file tests, clocks and random draws are parameters of the model. Timer firings are method calls.
Numbers that JavaScript holds as doubles are unbounded integers where the source only ever holds integers in them. Elsewhere they are reals, with `Math.exp` as a parameter.

## Model

| member | source | states |
|---|---|---|
| Feed.ValidateUrl | services/feed.ts:129-147 | an empty link gives ""; any other result is either "" or the trimmed link, and it is non-empty exactly when the link is non-empty, GLib parses the trimmed text and its scheme is http or https |
| Feed.AcceptedUrlPrefix | services/feed.ts:136-139 | an accepted link begins with `http:` or `https:`, in any letter case |
| Feed.HnIndex | services/feed.ts:120-122 | the leftmost position at or after the start where the comment-page expression matches; no earlier position matches |
| Feed.HnMatch | services/feed.ts:120-122 | there is no match exactly when the expression matches nowhere; a match is the comment-page prefix followed by a non-empty run of digits |
| Feed.HnMatchTrimmed | services/feed.ts:123 | a comment-page match has no surrounding whitespace, so trimming keeps it unchanged |
| Feed.HnMatchScheme | services/feed.ts:123 | the scheme of a comment-page match is https |
| Feed.LinkOf | services/feed.ts:125 | a non-empty first alternate link wins; otherwise the first canonical link; "" exactly when neither is there and non-empty |
| Feed.ExtractUrl | services/feed.ts:117-127 | the link is always empty or http(s); a non-empty link is the Hacker News comment page, or the trimmed first alternate link, or the trimmed first canonical link |
| Feed.HackerNewsLink | services/feed.ts:119-123 | a Hacker News item whose summary quotes a comment page GLib accepts links to exactly that page, whatever its other links |
| Feed.AlternateShadowsCanonical | services/feed.ts:125-126 | outside the Hacker News case a present alternate link is the only candidate: the result is its validation, and a non-http(s) alternate gives "" without trying the canonical link |
| Feed.CanonicalFallback | services/feed.ts:125-126 | outside the Hacker News case and without a non-empty alternate link, the result is the validated canonical link, and "" when there is none |
| Feed.HackerNewsNoFallback | services/feed.ts:119-123 | a Hacker News comment page that GLib rejects gives "" without trying the item's other links |
| Feed.Weight | services/feed.ts:103-104 | an article published now weighs `exp(0)`, and one a half-life old `exp(-0.693147)`, half of that |
| Feed.NewerWeighsMore | services/feed.ts:103-104 | with an increasing `exp`, a newer article never weighs less than an older one |
| Feed.KeptIndices | services/feed.ts:100-101 | the positions of the items with a title, strictly increasing, and every titled item's position is among them |
| Feed.TitledAt | services/feed.ts:100-101 | the filter keeps exactly the items at those positions, in input order |
| Feed.ParseArticles | services/feed.ts:97-115 | one article per titled item, in input order; each copies the item's id, title and date; its source is the origin title, or "Feed" without one; its link is the extracted link and its weight the decay of its age; every article has a title and a safe link |
| Feed.Weights | services/feed.ts:152 | the weights of the articles, position by position |
| Feed.PrefixSumMonotone | services/feed.ts:161-168 | with non-negative weights the running sums never decrease |
| Feed.FirstReaching | services/feed.ts:161-168 | the first position whose running sum reaches the pick, where `pick -= weight` first drops to 0 or below; every earlier running sum is below the pick |
| Feed.FirstReachingFinds | services/feed.ts:161-168 | a running sum that reaches the pick at some position stops the loop there or earlier |
| Feed.ReachedByTotal | services/feed.ts:161-168 | a pick no larger than the total is always reached |
| Feed.Scaled | services/feed.ts:159 | a draw from [0, 1) scaled by a positive total lies in [0, total) |
| Feed.Selection | services/feed.ts:149-173 | the chosen position is in range, and it is the first when the weights sum to 0 |
| Feed.NoFallThrough | services/feed.ts:159-171 | with a positive total and a draw from [0, 1), the loop always finds an article and the fallback after it is never taken |
| Feed.SelectionInterval | services/feed.ts:159-168 | with non-negative weights, position k is chosen exactly when the pick lies in (sum before k, sum through k], an interval as wide as the weight of k |
| Feed.SelectedHasWeight | services/feed.ts:159-168 | with non-negative weights and a positive pick, an article of weight 0 is never shown |
| Feed.ErrorText | services/feed.ts:88-90 | the recorded error is never empty, and it is the thrown message when that is not empty |
| Feed.FeedService.constructor | services/feed.ts:18-23 | the service starts with no articles, no current article, status loading, no error and not paused |
| Feed.FeedService.SelectNext | services/feed.ts:149-173 | an empty list changes nothing; otherwise `current` becomes the article at the roulette's position; nothing else changes, and every stored link stays http(s) or empty |
| Feed.FeedService.Refresh | services/feed.ts:52-95 | a missing token or API URL, or a failed request, sets status error with its message and keeps the articles and the current article; a success replaces the list with the parsed items, sets ready with no error, and selects an article only when none was current and the list is non-empty |
| Feed.FeedService.CycleTick | services/feed.ts:205-210 | the cycle timer selects an article only when not paused and the list is non-empty; otherwise nothing changes |
| Feed.FeedService.Pause | services/feed.ts:175-177 | pausing sets the flag and changes nothing else |
| Feed.FeedService.Resume | services/feed.ts:179-181 | resuming clears the flag and changes nothing else |
| Feed.FeedService.OpenCurrent | services/feed.ts:184-190 | a link is opened exactly when there is a current article with a non-empty link, and an opened link is http(s) |
| Config.StripLine | services/config.ts:116-119 | a stripped line is a prefix of the line with no `//` in it: the whole line when it has no `//`, else the text before its first `//` |
| Config.StripLines | services/config.ts:114-120 | one stripped line per line, position by position |
| Config.StripComments | services/config.ts:114-120 | stripping keeps the number and order of lines: line k of the result is line k of the file, cut at its first `//` |
| Config.StripLineAt | services/config.ts:117-118 | a line whose text before `//` holds no slash is cut exactly there |
| Config.StripCutsInsideStrings | services/config.ts:117-118 | the cut ignores string literals: a URL inside a JSON string loses everything from its `//` on |
| Config.ObjectView | services/config.ts:156-159 | the properties a spread copies: an object's own fields, and for an array exactly its elements under their decimal indices, with no other key |
| Config.StringsOf | services/config.ts:136-138 | the filter keeps only string elements, and keeps every one of them |
| Config.StringsOfAppend | services/config.ts:136-138 | filtering distributes over concatenation, so the kept strings stay in input order |
| Config.StringsOfStrings | services/config.ts:136-138 | an array of strings passes the filter whole and in order |
| Config.StringsOfAll | services/config.ts:136-138 | a list of JSON strings passes the filter as exactly its strings, in order |
| Config.LayoutList | services/config.ts:134-149 | a layout list given as an array becomes its string elements; an absent or non-array list keeps the current one |
| Config.OverlayWidgets | services/config.ts:153-162 | no widget entry is dropped; each user entry whose value is an object becomes the current entry overlaid with the user's keys; every other entry is left alone |
| Config.OverlayEntry | services/config.ts:156-159 | in an overridden entry, the user's keys win and every other key of the current entry stays |
| Config.ValidateNotifications | services/config.ts:165-177 | `monitor` changes only to "primary", "focused" or a number, and then to the setting that value spells; `groupByApp` changes only to a boolean; anything else keeps the current setting |
| Config.MonitorRoundTrip | services/config.ts:167-172 | every monitor setting survives being written to the file and read back |
| Config.Validate | services/config.ts:130-180 | validation fails (reading `parsed.layout` throws) exactly when the parsed value is null |
| Config.ValidateEmptyObject | services/config.ts:130-180 | validating `{}` keeps the current value unchanged, since no field is there to overlay |
| Config.ValidateKeepsWidgets | services/config.ts:153-162 | validation never drops a widget entry, and leaves unchanged every entry the user's `widgets` object does not override |
| Config.LoadConfig | services/config.ts:94-128 | intended loader: a missing or unreadable file, a parse failure or a null value gives exactly the defaults |
| Config.LoadConfigEmptyObject | services/config.ts:122-123 | intended loader: a file holding `{}` gives exactly the defaults, whatever was loaded before |
| Config.LoadFrom | services/config.ts:94-128 | the as-written loader from the defaults' current value: a missing or unreadable file, a parse failure or null gives back that current value; any other parsed value is validated against it |
| Config.OverrideSurvivesMissing | services/config.ts:97-100 | as written, a widget key set through the file is still set when a reload finds the file missing (a reload scheduled by an earlier change that fires after the file was deleted) |
| Config.StaleOverrideAsWritten | services/config.ts:131 | as written, a clock format "%H:%M" set by a first load is kept when the file is edited to `{}` and reloaded, where the intended loader shows the default format |
| Config.DefaultClock | services/config.ts:40 | the default clock format is `%a %b %d %l:%M %p` |
| Config.GetWidgetConfig | services/config.ts:222-225 | the own settings of a widget the config has; for a name the widgets object inherits from `Object.prototype`, that inherited property; `undefined` for any other name |
| Config.InheritedWidgetConfig | services/config.ts:222-225 | with the defaults, "toString" and "__proto__" find inherited properties, "clock" its own settings and "battery" nothing |
| Config.IsEnabled | services/config.ts:216-219 | a name without own settings is enabled; a boolean `enabled` in its settings decides; any other `enabled` value leaves it enabled |
| Config.DefaultEnabled | services/config.ts:32-44 | with the defaults, `isEnabled` is false for weather, wifi and bluetooth and true for every other name, known or not; this matches tests/services/config.test.ts:103-116 |
| Config.UserEnabledWins | services/config.ts:217-220 | a boolean `enabled` in the user's widget entry decides `isEnabled`, whatever the defaults say |
| Config.LayoutObject.Apply | services/config.ts:134-150 | the layout part of validation, written into the shared layout object |
| Config.WidgetTable.Merge | services/config.ts:153-162 | the `for` loop over the user's widget entries leaves the shared table equal to the overlay of its old entries |
| Config.NotificationsObject.Apply | services/config.ts:165-177 | the notifications part of validation, written into the shared notifications object |
| Config.ConfigService.constructor | services/config.ts:57-72 | the first load runs at once; the config and the defaults then hold what the intended loader gives for the file |
| Config.ConfigService.ValidateConfig | services/config.ts:130-180 | a null value throws and changes nothing; otherwise the result is a fresh object sharing its three nested objects with the defaults, which now hold the validated value |
| Config.ConfigService.Load | services/config.ts:94-128 | the config and the defaults both hold the value loaded from the defaults' previous value; a missing or unreadable file makes `config` the defaults object itself |
| Config.ConfigService.OnFileEvent | services/config.ts:197-209 | a reload is scheduled for CHANGED and CREATED events only, and the config is untouched |
| Config.ConfigService.ReloadFires | services/config.ts:203-208 | a scheduled reload runs the loader once and uses up one pending reload |
| Config.TriggersReload | services/config.ts:197-201 | a file event schedules a reload exactly when it is CHANGED or CREATED; a deletion does not |
| Config.StaleOverrideInService | services/config.ts:57-208 | a service started on a file setting the clock format to "%H:%M", whose file is then edited to `{}` and reloaded on the CHANGED event, still shows "%H:%M" |
| ComfyUI.EscapeQuotesFree | services/comfyui.ts:84 | the replacement leaves a string without single quotes unchanged |
| ComfyUI.ShellEscape | services/comfyui.ts:83-85 | the escaped word is wrapped in single quotes, and a string without single quotes is just wrapped |
| ComfyUI.Unquote | services/comfyui.ts:84 | POSIX quote removal of a word never lengthens it |
| ComfyUI.EscapeQuotesAppend | services/comfyui.ts:84 | the global replacement acts on each part of a concatenation separately |
| ComfyUI.QuotedRun | services/comfyui.ts:84 | under POSIX quote removal, a single-quoted run with no quote inside stands for its text |
| ComfyUI.Backslashed | services/comfyui.ts:84 | under POSIX quote removal, an unquoted backslash keeps the character after it |
| ComfyUI.QuotedThen | services/comfyui.ts:84 | the quoted, escaped text followed by more text unquotes to the original text followed by what the rest unquotes to |
| ComfyUI.ShellEscapeRoundTrip | services/comfyui.ts:83-85 | the shell turns the escaped word back into the original string, for every string |
| ComfyUI.ShellEscapeThen | services/comfyui.ts:166 | an escaped path followed by a suffix of plain characters stands for the path followed by the suffix |
| ComfyUI.PlainWord | services/comfyui.ts:166 | a word of plain characters unquotes to itself |
| ComfyUI.MainPyWord | services/comfyui.ts:166 | the `main.py` word of the default command names `main.py` inside the ComfyUI directory, whatever characters the directory holds |
| ComfyUI.KeepLines | services/comfyui.ts:125 | the filter keeps exactly the non-empty lines that do not start with `#`; a single line is kept or dropped on its own |
| ComfyUI.KeepLinesAppend | services/comfyui.ts:125 | filtering distributes over concatenation, so the kept lines stay in input order with their multiplicity |
| ComfyUI.TrimAll | services/comfyui.ts:124 | each line trimmed, position by position |
| ComfyUI.PmonLinesKept | services/comfyui.ts:122-125 | the loop sees only trimmed, non-empty, non-header lines, and sees every such line of the output |
| ComfyUI.SmOfCounts | services/comfyui.ts:129-137 | a line counts exactly when it has at least five fields, its pid column reads as the pid, and its SM column is a number other than "-"; it then adds that number |
| ComfyUI.SmOf | services/comfyui.ts:129-137 | a counted line has at least five fields with the pid in its second; its SM column is not "-" and the value is that column read as a number |
| ComfyUI.PmonSumBounds | services/comfyui.ts:127-138 | lines that count for nothing give a total of 0, and lines with non-negative SM values give a non-negative total |
| ComfyUI.PmonSumOtherPid | services/comfyui.ts:130-132 | lines that are too short or belong to another process add nothing to the total |
| ComfyUI.PmonSumSnoc | services/comfyui.ts:128-138 | each loop turn adds the SM value of its line, or 0 |
| ComfyUI.SumSm | services/comfyui.ts:127-138 | the loop's total is the sum of the SM values of the counted lines |
| ComfyUI.Clamp | services/comfyui.ts:153 | a clamped value is in [0, 100]: a value already in range is unchanged, a negative one gives 0 and one above 100 gives 100 |
| ComfyUI.GpuPercentOf | services/comfyui.ts:118-157 | the GPU percentage always lies in [0, 100] |
| ComfyUI.GpuPercentFromPmon | services/comfyui.ts:140 | a positive per-process total decides alone, capped at 100, and the GPU-wide reading is not consulted |
| ComfyUI.GpuPercentFallback | services/comfyui.ts:145-156 | without a positive per-process total, the GPU-wide reading is used when it lies in [0, 100], a negative reading gives 0 and one above 100 gives 100; a failed call or a reply with no number gives 0 |
| ComfyUI.GpuPercent | services/comfyui.ts:118-157 | the method computes the GPU percentage, which lies in [0, 100] |
| ComfyUI.CheckRunning | services/comfyui.ts:196-201 | no pid, or pid 0, reports not running and no pid; otherwise the pid is reported and the server runs exactly when `kill -0` succeeds |
| ComfyUI.CheckRunningFromFile | services/comfyui.ts:87-96 | a pid file whose trimmed text reads as a pid other than 0 is checked with `kill -0` on that pid |
| ComfyUI.CheckRunningOfText | services/comfyui.ts:87-96 | a pid file holding a decimal pid other than 0 is read back as that pid and checked |
| ComfyUI.ComfyUrl | services/comfyui.ts:48-51 | the configured URL when it is non-empty, else `http://127.0.0.1:` followed by the port |
| ComfyUI.PythonPath | services/comfyui.ts:67-81 | the first existing interpreter among the configured one, `venv312` and `venv`, or "python" when none exists |
| ComfyUI.StartCommand | services/comfyui.ts:159-194 | the configured command when it is non-empty, else the default words joined by spaces |
| ComfyUI.StopCommand | services/comfyui.ts:245-248 | the stop script names, in all three places, one word that the shell reads back as the pid file's path, whatever characters it holds |
| ComfyUI.ComfyUIService.constructor | services/comfyui.ts:10-12 | a new service is stopped with no load and no command issued |
| ComfyUI.ComfyUIService.Refresh | services/comfyui.ts:203-218 | the status is running or stopped from the check; a running server shows the `ps` reading and the GPU percentage, and a stopped one shows 0 and 0 |
| ComfyUI.ComfyUIService.Toggle | services/comfyui.ts:220-235 | a running or starting server becomes stopping and the stop command is issued; a stopped or stopping one becomes starting and the start command is issued; a refresh is scheduled either way |
| ComfyUI.ComfyUIService.RefreshFires | services/comfyui.ts:231-234 | the scheduled refresh settles the status from the check |
| Vpn.FirstMarker | services/vpn.ts:62 | the leftmost position at or after the start where the marker occurs, ignoring case; it occurs at no earlier position |
| Vpn.AfterMarker | services/vpn.ts:62 | `\s*` after the marker consumes whitespace only, and stops at the first other character |
| Vpn.FirstMarkerAt | services/vpn.ts:62 | in a text without the marker before a given tag, the tag's position is where the marker is found |
| Vpn.LineLen | services/vpn.ts:62 | `.+` stops at the first line terminator: the length of the text before it |
| Vpn.MarkerLine | services/vpn.ts:62 | for a status line `<pre><marker><spaces><body>`, the match starts at the marker and the captured text starts right after the spaces |
| Vpn.Capture | services/vpn.ts:62 | without the marker there is no capture; a capture is non-empty and starts with a character other than whitespace |
| Vpn.LineAfter | services/vpn.ts:62-65 | the text after a marker is "" without the marker, non-empty exactly when there is a capture, and trimmed |
| Vpn.LineAfterOfLine | services/vpn.ts:62-65 | the text after a marker is the trimmed rest of its line |
| Vpn.LocationOfLine | services/vpn.ts:62-65 | the location is the trimmed rest of the first line holding "Visible location:", in any letter case |
| Vpn.Location | services/vpn.ts:58-65 | without "Visible location:" the location is ""; it is always trimmed |
| Vpn.CaptureShape | services/vpn.ts:62 | a captured rest of line holds no line terminator |
| Vpn.LineAfterShape | services/vpn.ts:62-65 | the text after a marker is trimmed and lies on one line |
| Vpn.LocationShape | services/vpn.ts:62-65 | the location is trimmed and lies on one line |
| Vpn.DigitRunEnd | services/vpn.ts:68 | `\d+` consumes the whole run of digits from a position |
| Vpn.GroupsEnd | services/vpn.ts:68 | where `\d+\.\d+\.\d+\.\d+` ends when it matches at a position |
| Vpn.GroupsEndSound | services/vpn.ts:68 | a matched address is four non-empty digit groups joined by dots, and its end is not followed by a digit |
| Vpn.GroupsEndComplete | services/vpn.ts:68 | four digit groups joined by dots, not followed by a digit, are matched, ending at their end |
| Vpn.FirstAddress | services/vpn.ts:68 | the leftmost position where "IPv4:", whitespace and an address match; no earlier position does |
| Vpn.FirstAddressAtMarker | services/vpn.ts:68-71 | when the first "IPv4:" is followed by an address, that occurrence is the match |
| Vpn.AddressAfter | services/vpn.ts:68-71 | the text after a marker is "" or four digit groups joined by dots, and "" without the marker |
| Vpn.AddressFound | services/vpn.ts:68-71 | the address following the first marker occurrence is the one reported |
| Vpn.AddressOfLine | services/vpn.ts:68-71 | for a line `<pre><marker><spaces><address><rest>`, the text after the marker is the address |
| Vpn.IpOfLine | services/vpn.ts:68-71 | the ip is the address following the first "IPv4:", in any letter case |
| Vpn.Ip | services/vpn.ts:59-71 | without "IPv4:" the ip is ""; otherwise it is four digit groups joined by dots |
| Vpn.RotationIndex | services/vpn.ts:130 | a draw from [0, 1) picks a valid index of the location list |
| Vpn.RotationChoice | services/vpn.ts:130 | a draw below 0.5 picks "us" and any other "ca" |
| Vpn.RotateCommands | services/vpn.ts:128-138 | the relay command for the location comes first; the reconnect follows exactly when the relay command succeeded |
| Vpn.VpnService.constructor | services/vpn.ts:14-38 | a new service is disconnected and not rotating, with the status timer running and no rotation timer |
| Vpn.VpnService.Refresh | services/vpn.ts:50-85 | a failed status command resets the status to disconnected; otherwise connected and connecting hold exactly when the output contains "Connected" and "Connecting", and the location and ip are parsed from it; rotation is untouched |
| Vpn.VpnService.Rotate | services/vpn.ts:128-138 | one rotation issues the relay command for the drawn location, then a reconnect when that succeeds; nothing else changes |
| Vpn.VpnService.StartRotation | services/vpn.ts:104-118 | starting sets the flag, rotates once at once and keeps the new timer |
| Vpn.VpnService.StopRotation | services/vpn.ts:120-126 | stopping clears the flag and the timer handle, removing a timer that was set |
| Vpn.VpnService.ToggleRotation | services/vpn.ts:95-102 | the flag flips; stopping removes the rotation timer and clears its handle, starting rotates once and keeps the new timer |
| Vpn.VpnService.RotationTimerFires | services/vpn.ts:111-117 | the timer rotates and stays only while the flag is set |
| Vpn.VpnService.Destroy | services/vpn.ts:151-156 | the status timer is removed and rotation stops |
| ProxyForge.Targets | services/proxyforge.ts:54 | the targets are `PROXYFORGE_TARGETS` when it is set and non-empty, else "claude,codex,node"; they are never empty |
| ProxyForge.ModeArgTargets | services/proxyforge.ts:83 | the mode argument is `local:` followed by exactly the targets |
| ProxyForge.ModeArgInjective | services/proxyforge.ts:83 | different targets give different mode arguments |
| ProxyForge.StopCommands | services/proxyforge.ts:63-66 | stopping kills the processes matching the local-mode pattern, then removes the flag file |
| ProxyForge.StartCommands | services/proxyforge.ts:76-84 | starting creates the flag file, then launches the script through `pkexec` with a mode argument that reads back as `local:` and the targets |
| ProxyForge.StopUndoesStart | services/proxyforge.ts:50-84 | the stop commands remove the very flag file the start commands create, and kill by a pattern ending in the prefix the launched mode argument starts with |
| ProxyForge.Attempt | services/proxyforge.ts:61-88 | the commands run in order up to and including the first failure; the notice follows them only when none failed |
| ProxyForge.AttemptOrder | services/proxyforge.ts:61-88 | the commands of a branch run in order until the first failure; the desktop notice is sent only when every command succeeded |
| ProxyForge.Observed | services/proxyforge.ts:33-47 | a refresh never shows stopping; it shows active exactly when the process runs, and off exactly when it neither runs nor has its flag file |
| ProxyForge.Toggled | services/proxyforge.ts:56-73 | a toggle always changes the status: it goes to stopping exactly from active or starting, and to starting from off or stopping |
| ProxyForge.ToggledChanges | services/proxyforge.ts:56-73 | toggling again before a refresh alternates between stopping and starting |
| ProxyForge.ProxyForgeService.constructor | services/proxyforge.ts:9-21 | a new service is off, with its status timer set and nothing issued |
| ProxyForge.ProxyForgeService.Refresh | services/proxyforge.ts:33-47 | the status becomes what `pgrep` and the flag file show, and listeners see it |
| ProxyForge.ProxyForgeService.Toggle | services/proxyforge.ts:50-96 | from active or starting it shows stopping and runs the stop commands; otherwise it shows starting and runs the start commands with the targets; a refresh is scheduled either way |
| ProxyForge.ProxyForgeService.RefreshFires | services/proxyforge.ts:92-95 | the scheduled refresh settles the status from `pgrep` and the flag file |
| ProxyForge.ProxyForgeService.Destroy | services/proxyforge.ts:124-128 | the status timer is removed and nothing else changes |
| AudioCtl.QuoteFrom | services/audioctl.ts:86 | `[^']+` runs up to the first single quote after a position, or to the end of the line |
| AudioCtl.FirstMatch | services/audioctl.ts:86 | the leftmost position where `Simple mixer control '<name>'` matches; no earlier position does |
| AudioCtl.ControlName | services/audioctl.ts:86-88 | a line without a match gives no control; otherwise the name is the non-empty, quote-free text between the prefix of the leftmost match, wherever it lies in the line, and the next single quote |
| AudioCtl.NameOfLine | services/audioctl.ts:85-88 | the line `Simple mixer control '<name>'<rest>` names exactly `<name>` |
| AudioCtl.Classify | services/audioctl.ts:89-96 | a control is a headphone exactly when its name contains "headphone" or "hp" in any case, a speaker exactly when it is not a headphone and contains one of the speaker words, and unknown otherwise |
| AudioCtl.Parsed | services/audioctl.ts:84-100 | at most one control per line |
| AudioCtl.ParsedAppend | services/audioctl.ts:84-100 | the loop handles each line on its own, so the controls keep the order of the lines |
| AudioCtl.ParseControls | services/audioctl.ts:80-103 | the loop pushes exactly the controls of the matching lines, in order |
| AudioCtl.Controls | services/audioctl.ts:98 | one control per name, named and classified by it |
| AudioCtl.ParsedEntries | services/audioctl.ts:84-100 | the lines `Simple mixer control '<name>',0` give back exactly their names, in order, each classified |
| AudioCtl.ParseListing | services/audioctl.ts:80-103 | a whole `amixer scontrols` listing parses back to its names, in order |
| AudioCtl.FirstName | services/audioctl.ts:51-70 | the choice is the default or a matching name; with no match it is the default; it is the first match in listing order |
| AudioCtl.NoHOf | services/audioctl.ts:92 | a speaker name, whose letters hold no h, is never a headphone |
| AudioCtl.ChoiceAgreesWithClass | services/audioctl.ts:51-96 | a name chosen as the speaker control is classified as a speaker, and one chosen as the headphone control as a headphone |
| AudioCtl.SetCommand | services/audioctl.ts:114-121 | the command is `amixer -c <card> sset <control>` followed by "unmute" exactly for on and "mute" exactly for off |
| AudioCtl.ControlState | services/audioctl.ts:105-112 | a control is on exactly when the query succeeded and its output contains "[on]" |
| AudioCtl.AudioControlService.constructor | services/audioctl.ts:12-14 | the controls start as "Line Out" and "Headphone", not initialised |
| AudioCtl.AudioControlService.Discover | services/audioctl.ts:39-78 | discovery always ends initialised; a failed listing keeps both controls; otherwise each control is the first name of its kind, or the one it had |
| AudioCtl.ChoiceOfNames | services/audioctl.ts:51-70 | over a parsed listing, the choice is the default or a matching name, and no later name wins over an earlier match |
| AudioCtl.DiscoveredFromListing | services/audioctl.ts:39-78 | a new service given a listing ends initialised, with each control the default or the first matching name of the listing |
| Weather.FetchJsonBody | services/weather.ts:133-145 | an empty or whitespace-only body throws "Empty response from <url>"; any other body is decoded; a failed `curl` throws its own error |
| JsRuntime.Round | services/weather.ts:110 | `Math.round` gives the integer nearest to its argument, halves rounding up |
| JsRuntime.RoundProperties | services/weather.ts:110 | rounding keeps integers and is monotone |
| Weather.Fahrenheit | services/weather.ts:109-110 | a missing reading gives 0; a reading gives the Fahrenheit value rounded to the nearest integer |
| Weather.FahrenheitExact | services/weather.ts:110 | a multiple of 5 degrees Celsius converts exactly, and a warmer reading never shows colder |
| Weather.FindFrom | services/weather.ts:105-106 | the first period at or after a position whose day flag is the wanted one; none before it |
| Weather.FirstPeriod | services/weather.ts:105-106 | there is no such period exactly when no period has the wanted day flag; a found one is in the list and has it |
| Weather.Condition | services/weather.ts:114 | the station's description when non-empty, else the first period's short forecast when non-empty, else "Unknown"; never empty |
| Weather.DeriveHighLow | services/weather.ts:104-117 | the high is the temperature of the first daytime period and the low that of the first night period; no precipitation reading gives 0 |
| Weather.DeriveNoPeriod | services/weather.ts:115-116 | without a daytime period the high is 0, and without a night period the low is 0 |
| Weather.FromStation | services/weather.ts:93-100 | the station's latest observation is fetched first, and a success has also fetched the forecast |
| Weather.FromPoint | services/weather.ts:87-100 | the station list is fetched first, and a success has made the two later requests |
| Weather.Fetch | services/weather.ts:81-118 | the grid point is fetched first, and a success has made all four requests |
| Weather.FetchBlankPoint | services/weather.ts:140-142 | a blank reply for the grid point stops the refresh with the empty-response error after one request |
| Weather.FetchFirstStation | services/weather.ts:88-94 | an empty station list stops the refresh after two requests; otherwise the first station's observations are fetched next |
| Weather.FetchSucceeds | services/weather.ts:81-118 | when all four requests succeed, their URLs are requested in order and the result is the data derived from the observation and forecast |
| Weather.FetchOfPoint | services/weather.ts:84-88 | after the grid point, the refresh continues from its station list |
| Weather.FromPointStation | services/weather.ts:89-94 | the first station of the list is the one used |
| Weather.FromStationSucceeds | services/weather.ts:95-118 | with the observation and the forecast in hand, the result is the data derived from them |
| Weather.ErrorMessage | services/weather.ts:125 | the recorded error is never empty, and it is the thrown message when that is not empty |
| Weather.ErrorMessageOfError | services/weather.ts:125 | an `Error` with a message records that message |
| Weather.WeatherService.constructor | services/weather.ts:43-59 | the first refresh is in flight: no data, no error, loading, with the refresh timer set |
| Weather.WeatherService.StartRefresh | services/weather.ts:74-75 | loading is set and announced, and the data and error are kept |
| Weather.WeatherService.FinishRefresh | services/weather.ts:77-130 | a success stores the derived data and clears the error; a failure records the error message and keeps the previous data; loading ends either way |
| Weather.WeatherService.Refresh | services/weather.ts:72-131 | a whole refresh: loading is announced first, then the outcome as in `FinishRefresh` |
| Weather.WeatherService.Destroy | services/weather.ts:159-163 | the refresh timer is removed and nothing else changes |
| WidgetRegistry.RegistryKeys | utils/widget-registry.ts:8-102 | `getWidgetNames` lists eleven distinct keys; the intended `hasWidget` holds exactly for them; none is a name inherited from `Object.prototype` |
| WidgetRegistry.HasWidget | utils/widget-registry.ts:95-97 | intended `hasWidget`: holds exactly for the names `getWidgetNames` lists, none of them inherited from `Object.prototype` |
| WidgetRegistry.InheritedNameAccepted | utils/widget-registry.ts:95-97 | as written, `hasWidget("toString")` holds although "toString" is not among the widget names |
| WidgetRegistry.WidgetCache.constructor | utils/widget-registry.ts:69 | the cache starts empty |
| WidgetRegistry.WidgetCache.Lookup | utils/widget-registry.ts:72-92 | a cached name is answered from the cache without loading; a name without a loader, or a load that throws, gives null and caches nothing; a successful load is cached under the name and returned |
| WidgetRegistry.WidgetCache.GetWidget | utils/widget-registry.ts:72-92 | intended `getWidget`: as above with registry keys only, so the cache only ever holds registry keys |
| WidgetRegistry.WidgetCache.GetWidgetAsWritten | utils/widget-registry.ts:72-92 | `getWidget` as written: any name `in` the registry, inherited ones included, is loaded and cached |
| WidgetRegistry.LookupTwice | utils/widget-registry.ts:74-91 | once a key has loaded, the next call returns the very same factory without loading; after a failed load the next call tries again |
| WidgetRegistry.InheritedNameCached | utils/widget-registry.ts:78-87 | as written, asking for "toString" caches an entry for a name that is not a widget |
| Audio.Card | widgets/Audio.tsx:13 | the card is `AUDIO_CARD` when it is set and non-empty, and "3" when it is unset or empty; never empty |
| Audio.ModeOf | widgets/Audio.tsx:37-46 | the mode includes the speakers exactly when Line Out is on and the headphones exactly when Headphone is on |
| Audio.Observed | widgets/Audio.tsx:15-46 | the mode shown reflects each output's query: a failed query counts as off, and two failed queries show muted |
| Audio.ModeOfInverse | widgets/Audio.tsx:34-46 | the mode derived from the two outputs' states gives back both states: both on is "both", only Line Out "speakers", only Headphone "headphones", neither "muted" |
| Audio.IsOn | widgets/Audio.tsx:20-35 | an output is on exactly when its query succeeded and printed "[on]"; a failed query counts as off |
| Audio.NextCycle | widgets/Audio.tsx:81-93 | a toggle always changes the mode and never mutes; speakers, headphones and both cycle with period three, and muted goes to speakers |
| Audio.Next | widgets/Audio.tsx:81-93 | the next mode is never muted, always differs from the current one, and has at least one output on |
| Audio.ModeCommandsSet | widgets/Audio.tsx:96-133 | the new mode's commands switch Line Out on exactly when it includes the speakers and Headphone on exactly when it includes the headphones |
| Audio.ToggleReadBack | widgets/Audio.tsx:34-133 | when the commands take effect, the next refresh reads back the mode the toggle chose |
| Audio.Icon | widgets/Audio.tsx:55-66 | every icon is a symbolic `audio-` icon name |
| Audio.Tooltip | widgets/Audio.tsx:68-76 | the tooltip starts with "Speakers" exactly when the speakers are on, and mentions "Headphones" exactly when the headphones are on |
| Audio.PresentationInjective | widgets/Audio.tsx:55-76 | different modes have different icons and different tooltips |
| Audio.AudioWidget.constructor | widgets/Audio.tsx:9-13 | the widget starts in speakers mode with the speakers icon, polling the card from the environment |
| Audio.AudioWidget.Refresh | widgets/Audio.tsx:15-53 | both outputs are queried and the mode becomes the one their states show, with its icon |
| Audio.AudioWidget.Toggle | widgets/Audio.tsx:78-140 | the mode becomes the next one in the cycle, with its icon, whatever the commands do, and the commands for that mode are issued |
| Audio.AudioWidget.Cleanup | widgets/Audio.tsx:149-151 | the polling timer is removed and nothing else changes |
| NotificationPanel.PanelState.constructor | widgets/NotificationPanel.tsx:16-17 | the panel starts hidden with no listeners |
| NotificationPanel.PanelState.Subscribe | widgets/NotificationPanel.tsx:134-135 | a listener is added to the set once, and nothing else changes |
| NotificationPanel.PanelState.Unsubscribe | widgets/NotificationPanel.tsx:136 | the listener leaves the set and every other listener stays |
| NotificationPanel.PanelState.Toggle | widgets/NotificationPanel.tsx:19-22 | the visibility flips, and every listener, in order, is handed the new value |
| NotificationPanel.ToggleTwice | widgets/NotificationPanel.tsx:19-22 | toggling twice restores the visibility, each listener having been told twice |
| NotificationPanel.TimeAgo | widgets/NotificationPanel.tsx:29-36 | "just now" exactly below a minute; every other label ends in " ago" |
| NotificationPanel.TimeAgoReadBack | widgets/NotificationPanel.tsx:29-36 | "just now" exactly below a minute; then the label is the whole minutes (1 to 59) followed by "m ago", the hours (1 to 23) by "h ago", or the days (at least 1) by "d ago", and it reads back as that number |
| NotificationPanel.UrgencyClass | widgets/NotificationPanel.tsx:38-47 | "critical" exactly for the critical level, "normal" exactly for the normal level, "low" for any other |
| NotificationPanel.Keys | widgets/NotificationPanel.tsx:143-150 | the applications of the input, each once, and exactly those |
| NotificationPanel.Members | widgets/NotificationPanel.tsx:151 | a group's notifications come from the input and belong to its application |
| NotificationPanel.Grouped | widgets/NotificationPanel.tsx:139-155 | one group per application |
| NotificationPanel.GroupedSeen | widgets/NotificationPanel.tsx:144-151 | a notification from an application already seen is appended to that application's group and changes nothing else |
| NotificationPanel.GroupedNew | widgets/NotificationPanel.tsx:144-151 | a notification from a new application opens a new last group with its icon |
| NotificationPanel.KeysStep | widgets/NotificationPanel.tsx:144-150 | the applications grow by the new notification's when it is new |
| NotificationPanel.Place | widgets/NotificationPanel.tsx:143-151 | one loop turn keeps the groups equal to the grouping of the notifications seen so far |
| NotificationPanel.GroupNotifications | widgets/NotificationPanel.tsx:139-155 | the loop returns the grouping of its input |
| NotificationPanel.GroupedTotal | widgets/NotificationPanel.tsx:139-155 | the group sizes sum to the number of notifications |
| NotificationPanel.GroupedPlacesEach | widgets/NotificationPanel.tsx:139-155 | each notification is in the group of its application, any group holding it is that application's, and no two groups share an application |
| NotificationPanel.MembersAppend | widgets/NotificationPanel.tsx:142-152 | within a group, notifications keep input order |
| NotificationPanel.MembersHas | widgets/NotificationPanel.tsx:151 | every notification is among its application's |
| NotificationPanel.FirstIconIsFirst | widgets/NotificationPanel.tsx:144-149 | a group's icon comes from the first notification of its application, or is the default when that one has none |
| NotificationPanel.KeysPrefix | widgets/NotificationPanel.tsx:140-154 | groups come in order of first appearance: the applications of a prefix of the input are a prefix of those of the whole |
| NotificationPanel.View | widgets/NotificationPanel.tsx:88-126 | an empty box exactly for no notifications; collapsed exactly with five or more folded; a collapse header exactly from five notifications on |
| NotificationPanel.GroupedNonEmpty | widgets/NotificationPanel.tsx:139-155 | every group built holds a notification, so no real group renders the empty box |
| NotificationPanel.UnreadCount | widgets/NotificationPanel.tsx:216-219 | the number of notifications, or 0 without a daemon |
| SystemMonitor.Numbers | widgets/SystemMonitor.tsx:21 | `map(Number)` gives one number per field |
| SystemMonitor.ShareBounds | widgets/SystemMonitor.tsx:27-45 | a part of a positive whole is a share between 0 and 1, 0 for no part and 1 for the whole |
| SystemMonitor.CpuPercent | widgets/SystemMonitor.tsx:25-27 | a total that is not a number gives 0; a non-number comes only from a missing idle field; a non-zero usage needs the total to have advanced; with idle growing by no more than the total, the usage lies in [0, 100] |
| SystemMonitor.CpuPercentRange | widgets/SystemMonitor.tsx:25-27 | no progress of the total counter gives 0; otherwise, with the idle time growing by no more than the total, the usage is a whole percentage from 0 to 100, 0 when all the time was idle and 100 when none was |
| SystemMonitor.CpuSampler.constructor | widgets/SystemMonitor.tsx:14-15 | the previous counters start at 0 |
| SystemMonitor.CpuSampler.Sample | widgets/SystemMonitor.tsx:19-30 | the sample's idle and total counters become the previous ones, and the usage is computed from the old and new counters |
| SystemMonitor.SplitWsFields | widgets/SystemMonitor.tsx:21 | splitting counters written with single spaces gives back one word per counter, spelling it |
| SystemMonitor.WordsOfStatLine | widgets/SystemMonitor.tsx:21 | after dropping the label, the words of a `cpu` line spell its counters |
| SystemMonitor.FirstLineOfStat | widgets/SystemMonitor.tsx:20 | the first line of `/proc/stat` is the `cpu` line |
| SystemMonitor.SumOfCounters | widgets/SystemMonitor.tsx:23 | the sum of the parsed fields is the sum of the counters |
| SystemMonitor.CpuValuesOfStat | widgets/SystemMonitor.tsx:19-23 | reading `/proc/stat` gives back the counters of its `cpu` line, idle is field 4 plus field 5, and total is their sum |
| SystemMonitor.SampleTwice | widgets/SystemMonitor.tsx:14-30 | two samples give the usage between their counters and leave the second's as the previous ones |
| SystemMonitor.FirstWithPrefix | widgets/SystemMonitor.tsx:36 | `find` gives the first line starting with the key, or none when no line does |
| SystemMonitor.DigitRunOfEntry | widgets/SystemMonitor.tsx:38 | on a line `<heading><n> kB` whose heading has no digit, `(\d+)` captures the digits of n |
| SystemMonitor.GetValueOfEntry | widgets/SystemMonitor.tsx:35-40 | the value of a key is the number on the first line starting with it |
| SystemMonitor.GetValue | widgets/SystemMonitor.tsx:35-40 | a key no line starts with gives 0; a non-zero value comes from the first line starting with the key, and that line holds a digit |
| SystemMonitor.MemPercentRange | widgets/SystemMonitor.tsx:42-45 | with the available memory at most the total, the used share is a whole percentage from 0 to 100, 0 when all is available and 100 when none is |
| SystemMonitor.MemPercent | widgets/SystemMonitor.tsx:42-45 | the percentage is not a number exactly when the total is 0; with no more available than in total it lies in [0, 100] |
| SystemMonitor.Level | widgets/SystemMonitor.tsx:89-103 | "critical" exactly from 90, "normal" exactly below 50 or for a non-number |
| SystemMonitor.LevelScale | widgets/SystemMonitor.tsx:89-103 | the level is critical from 90, high from 70, medium from 50 and normal below, rising with the percentage; NaN is normal; CPU and memory share the scale |
| SystemMonitor.SystemMonitorWidget.constructor | widgets/SystemMonitor.tsx:62-85 | the widget starts with zero statistics and its polling timer |
| SystemMonitor.SystemMonitorWidget.Refresh | widgets/SystemMonitor.tsx:69-76 | a failed `/proc/stat` read changes nothing; a read updates the previous counters; a failed `/proc/meminfo` read then keeps the old statistics, and otherwise they become the statistics of the two files |
| SystemMonitor.SystemMonitorWidget.Cleanup | widgets/SystemMonitor.tsx:87 | the polling timer is removed and nothing else changes |
| Strings.Trim | services/feed.ts:134 | `trim` removes exactly the leading and trailing whitespace: the result is the middle of the text, starting and ending with non-space, and what is cut off at either end is whitespace |
| Strings.TrimIdempotent | services/comfyui.ts:124 | trimming twice is trimming once |
| Strings.TrimEmptyIff | services/weather.ts:140 | a text trims to "" exactly when it is all whitespace |
| Strings.IndexOfFrom | services/config.ts:117 | `indexOf` gives the first occurrence at or after the start, or -1 when there is none |
| Strings.ContainsIff | services/vpn.ts:55-56 | `includes` holds exactly when the pattern occurs somewhere |
| Strings.JoinSplit | services/config.ts:114-120 | joining the parts of a split with the separator gives back the text |
| Strings.SplitJoin | services/config.ts:114-120 | splitting a join of parts without the separator gives back the parts |
| Strings.SplitWs | services/comfyui.ts:129 | `split(/\s+/)` gives at least one part, none holding whitespace |
| Strings.SplitWsKeepsText | services/comfyui.ts:129 | the parts of `split(/\s+/)`, concatenated, are the text without its whitespace |
| Strings.NatToStringValue | services/comfyui.ts:50 | a number printed in decimal reads back as that number |
| Strings.ParseIntOfString | services/comfyui.ts:91 | `parseInt` of a printed integer followed by a non-digit is that integer |
| Strings.LowerStr | services/vpn.ts:62 | the `i` flag compares ASCII letters without case, character by character |
| Strings.FirstDigitRun | widgets/SystemMonitor.tsx:38 | `(\d+)` captures nothing exactly when the text has no digit; otherwise the whole run of digits that starts at the first digit of the text |

## Left out

- The feed service follows its code, not its design description. That description mentions a persistent article cache with merge, prune and first-seen times, age channels, epsilon-greedy choice with a diversity penalty, variable display times, actualize requests, a debug log and RSS/XML parsing. services/feed.ts has none of these: it fetches JSON, replaces its list on each success, cycles every 8 seconds and refreshes every 5 minutes. Only what the code does is modelled.
- Input and output are parameters: command outputs (`curl`, `amixer`, `nvidia-smi`, `mullvad`, `pgrep`, `cat`, `ps`, `kill -0`), environment variables, file tests, file reads and the clock. `JSON.parse` is a decoder parameter. The commands a method runs are recorded as strings or word lists, and their failures are inputs.
- Timers are method calls. A GLib source id is a positive number. `GLib.timeout_add` delays are not modelled.
- Listener fan-out (`subscribe`/`_notify`), the `get_default` singletons and overlapping asynchronous refreshes are not modelled. Each refresh runs to completion before the next one starts. Only the notification panel's listeners, which receive a value, are kept.
- Floating point is not modelled. Article weights are reals, with `Math.exp` as the parameter `exp` and `Date.now() / 1000` as `now`. `Math.random()` is a draw parameter in [0, 1). Counters and percentages are unbounded integers, and the 2^53 limit of doubles is not modelled.
- `destroy` of services/feed.ts:213-220 and services/config.ts:227-232, and the status loop and `destroy` of services/comfyui.ts:263-275, are not modelled: those classes keep no timer or file-monitor handle. A poll is a call of `Refresh`.
- The request URL of services/feed.ts:67-68, with its clock-derived `since`, is not modelled: the reply is an input.
- The configuration paths of services/audioctl.ts:42 (`config.config.audio.card`) and services/comfyui.ts:37 (`config.comfyui`) name keys that `Config` does not have. At run time those paths reach their error or `undefined` branches. The model takes the card, the ComfyUI settings and the `amixer` listing as inputs instead of reproducing that plumbing.
- The `curl` command line of services/weather.ts:134-137, with its flags and `User-Agent` header, is not modelled. The model records each request by its URL.
- `expandPath` is not part of this model. It is the parameter `expand`.
- `_ensureConfigDir` and `_writeDefaultConfig` only write files, and they are left out.
- ComfyUI.Unquote: quote removal does not cover double quotes. It covers only what `_shellEscape` produces: unquoted plain characters, single-quoted runs and backslash escapes.
- `_getCpuPercent` (`parseFloat` and `Math.round` on the `ps` output) and `openUI` are left out. The rounded `%cpu` is the parameter `cpu` of `ComfyUI.ComfyUIService.Refresh`.
- SystemMonitor.NumberOf: `Number(token)` is modelled for digit tokens, the empty token included, and treats every other token as NaN. `/proc/stat` only holds such tokens, but `Number` would also accept signs, hexadecimal and exponents.
- SystemMonitor.CpuPercentRange states the range and the two extremes of the usage, not its exact value. The exact value is the rounded real expression in `CpuPercent`.
- The CPU temperature of widgets/SystemMonitor.tsx:49-56, `openMonitor`, `openApp` of services/vpn.ts, `openViewer` of services/proxyforge.ts and `manualRefresh` of services/weather.ts are left out. They either run a command whose result is discarded, or only call `refresh`.
- The JSX of every widget is left out. That covers layout, CSS classes and labels such as the `Unknown` app label, the `… notifications` count and NaN percentages. `isPanelVisible` only reads the flag, and `clearAll`/`dismiss` only call the notification daemon.
- The widget loaders' dynamic imports are left out. A loaded factory is identified by its name and a serial number.
- The inherited property names of the widget registry and of the widgets object are those of ECMAScript 2023 section 20.1.3 and the Annex B accessors. Engine-specific extras are left out.
- Config.OverlayWidgets: a user entry named `__proto__` is modelled as an own entry; in JavaScript the assignment at services/config.ts:156 runs the `__proto__` setter and replaces the widgets object's prototype.
- `_currentLocationIndex` of services/vpn.ts:28 is never read, and it is left out.

## Findings

| source | as written | input that shows it | evidently intended | confidence | as-written member | corrected member |
|---|---|---|---|---|---|---|
| services/config.ts:131 | `{ ...DEFAULT_CONFIG }` copies only the top level. The writes at lines 136-176 therefore go into the nested objects of `DEFAULT_CONFIG`, and the fallbacks at lines 99, 107 and 126 return the defaults with earlier user settings in them. | a file setting `widgets.clock.format` to "%H:%M" is loaded, then the file is edited to `{}` (its CHANGED event reloads it): the clock keeps "%H:%M" | every load starts from pristine defaults, and a missing file gives the built-in defaults | high, not executed | Config.StaleOverrideAsWritten | Config.LoadConfig |
| utils/widget-registry.ts:96 | `name in widgetRegistry` also holds for the names the object literal inherits from `Object.prototype` | `hasWidget("toString")` is true | `hasWidget` holds exactly for the eleven registry keys | high, not executed | WidgetRegistry.InheritedNameAccepted | WidgetRegistry.RegistryKeys |
| utils/widget-registry.ts:78-87 | `widgetRegistry[name]` finds the inherited function `Object.prototype.toString`. Calling it returns a string without throwing, and that string is cached and returned as a factory. | `getWidget("toString")` | only registry keys are loaded and cached, and any other name gives null | high, not executed | WidgetRegistry.InheritedNameCached | WidgetRegistry.WidgetCache.GetWidget |

The `Config.ConfigService` class reproduces the shallow copy with shared heap objects: `DEFAULT_CONFIG`'s layout, widget table and notification settings are objects that every validated config points to. `Config.StaleOverrideInService` runs the finding's input through the service itself. A missing file is met only when a reload that an earlier change scheduled fires after the file was deleted, since a deletion schedules no reload; `Config.OverrideSurvivesMissing` covers that path. The pure loader `Config.LoadConfig` gives the intended result, and `Config.LoadConfigEmptyObject` shows that it forgets earlier loads. `Config.GetWidgetConfig` and `isEnabled` take a config value, so they apply to either loader.
