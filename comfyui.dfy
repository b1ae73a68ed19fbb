/** The ComfyUI service: it reads the server's pid file, asks `kill -0`,
    `ps` and `nvidia-smi` about the process, and starts or stops the server
    with shell commands whose paths are single-quoted. Command outputs, file
    existence, the `expandPath` helper and the `%cpu` reading are
    parameters; the commands issued are recorded as strings. */
module ComfyUI {
  import opened Wrappers
  import opened Strings

  // ---------------------------------------------------------------- quoting

  /** `value.replace(/'/g, "'\\''")`: every single quote becomes the four
      characters quote, backslash, quote, quote. */
  function EscapeQuotes(s: string): string
  {
    if s == [] then []
    else (if s[0] == '\'' then "'\\''" else [s[0]]) + EscapeQuotes(s[1..])
  }

  /** `_shellEscape`: the value between single quotes, each quote inside
      it closed, escaped and reopened. */
  function ShellEscape(value: string): (r: string)
    ensures |r| >= 2 && r[0] == '\'' && r[|r| - 1] == '\''
    ensures '\'' !in value ==> r == "'" + value + "'"
  {
    assert '\'' !in value ==> EscapeQuotes(value) == value by {
      if '\'' !in value {
        EscapeQuotesFree(value);
      }
    }
    "'" + EscapeQuotes(value) + "'"
  }

  /** The characters that section 2.2 of POSIX.1-2017 Shell Command Language
      requires or may require to be quoted to stand for themselves, besides
      the quoting characters themselves. */
  predicate ShellSpecial(c: char)
  {
    c in "|&;<>()$`\"*?[#~=% \t\n"
  }

  function Prepend(p: string, o: Option<string>): Option<string>
  {
    match o
    case None => None
    case Some(v) => Some(p + v)
  }

  /** Quote removal for a word made of unquoted characters, single-quoted
      runs and backslash escapes, after sections 2.2.1 and 2.2.2 of
      POSIX.1-2017 Shell Command Language: inside single quotes every
      character stands for itself up to the next single quote; a backslash
      keeps the next character, and a backslash-newline disappears. None
      when the word is unterminated or holds a character it would need to
      have quoted (double quotes are not handled). */
  function Unquote(w: string): (r: Option<string>)
    ensures r.Some? ==> |r.value| <= |w|
    decreases |w|
  {
    if w == [] then Some([])
    else if w[0] == '\'' then
      var j := CharIndex(w[1..], '\'');
      if j == |w| - 1 then None
      else Prepend(w[1..1 + j], Unquote(w[j + 2..]))
    else if w[0] == '\\' then
      if |w| == 1 then None
      else if w[1] == '\n' then Unquote(w[2..])
      else Prepend([w[1]], Unquote(w[2..]))
    else if ShellSpecial(w[0]) then None
    else Prepend([w[0]], Unquote(w[1..]))
  }

  lemma {:induction false} EscapeQuotesFree(s: string)
    requires '\'' !in s
    ensures EscapeQuotes(s) == s
  {
    if s != [] {
      EscapeQuotesFree(s[1..]);
    }
  }

  lemma {:induction false} EscapeQuotesAppend(a: string, b: string)
    ensures EscapeQuotes(a + b) == EscapeQuotes(a) + EscapeQuotes(b)
  {
    if a == [] {
      assert a + b == b;
    } else {
      assert (a + b)[1..] == a[1..] + b;
      EscapeQuotesAppend(a[1..], b);
    }
  }

  /** A single-quoted run without quotes inside stands for its text. */
  lemma {:induction false} QuotedRun(p: string, rest: string)
    requires '\'' !in p
    ensures Unquote("'" + p + "'" + rest) == Prepend(p, Unquote(rest))
  {
    var w := "'" + p + "'" + rest;
    assert w[1..] == p + ("'" + rest);
    CharIndexAfter(p, "'" + rest, '\'');
    assert w[1..1 + |p|] == p;
    assert w[|p| + 2..] == rest;
  }

  /** A backslash keeps the character after it. */
  lemma {:induction false} Backslashed(c: char, rest: string)
    requires c != '\n'
    ensures Unquote(['\\', c] + rest) == Prepend([c], Unquote(rest))
  {
    assert (['\\', c] + rest)[2..] == rest;
  }

  lemma {:induction false} PrependPrepend(a: string, b: string, o: Option<string>)
    ensures Prepend(a, Prepend(b, o)) == Prepend(a + b, o)
  {
    if o.Some? {
      assert a + (b + o.value) == (a + b) + o.value;
    }
  }

  lemma {:induction false} EscapeQuotesAtQuote(p: string, q: string)
    requires '\'' !in p
    ensures EscapeQuotes(p + "'" + q) == p + "'\\''" + EscapeQuotes(q)
  {
    calc {
      EscapeQuotes(p + "'" + q);
      == { EscapeQuotesAppend(p + "'", q); }
      EscapeQuotes(p + "'") + EscapeQuotes(q);
      == { EscapeQuotesAppend(p, "'"); }
      EscapeQuotes(p) + EscapeQuotes("'") + EscapeQuotes(q);
      == { EscapeQuotesFree(p); }
      p + "'\\''" + EscapeQuotes(q);
    }
  }

  /** A quoted string followed by more text unquotes to the string followed
      by whatever the rest unquotes to. */
  lemma {:induction false} QuotedThen(s: string, t: string)
    ensures Unquote("'" + EscapeQuotes(s) + "'" + t) == Prepend(s, Unquote(t))
    decreases |s|
  {
    var k := CharIndex(s, '\'');
    if k == |s| {
      assert s[..k] == s;
      EscapeQuotesFree(s);
      QuotedRun(s, t);
    } else {
      var p, q := s[..k], s[k + 1..];
      assert s == p + "'" + q;
      var u := "'" + EscapeQuotes(q) + "'" + t;
      calc {
        Unquote("'" + EscapeQuotes(s) + "'" + t);
        == { EscapeQuotesAtQuote(p, q);
             assert "'" + EscapeQuotes(s) + "'" + t == "'" + p + "'" + (['\\', '\''] + u); }
        Unquote("'" + p + "'" + (['\\', '\''] + u));
        == { QuotedRun(p, ['\\', '\''] + u); }
        Prepend(p, Unquote(['\\', '\''] + u));
        == { Backslashed('\'', u); }
        Prepend(p, Prepend("'", Unquote(u)));
        == { QuotedThen(q, t); }
        Prepend(p, Prepend("'", Prepend(q, Unquote(t))));
        == { PrependPrepend("'", q, Unquote(t)); }
        Prepend(p, Prepend("'" + q, Unquote(t)));
        == { PrependPrepend(p, "'" + q, Unquote(t)); assert p + ("'" + q) == s; }
        Prepend(s, Unquote(t));
      }
    }
  }

  /** `_shellEscape` is a single shell word that the shell turns back into
      the original string, whatever characters it holds. */
  lemma {:induction false} ShellEscapeRoundTrip(value: string)
    ensures Unquote(ShellEscape(value)) == Some(value)
  {
    QuotedThen(value, "");
    assert ShellEscape(value) + "" == ShellEscape(value);
    assert value + [] == value;
  }

  /** A quoted directory with a plain suffix, as in `${comfyDir}/main.py`,
      stands for the directory followed by the suffix. */
  lemma {:induction false} ShellEscapeThen(value: string, suffix: string)
    requires forall k :: 0 <= k < |suffix| ==> !ShellSpecial(suffix[k]) && suffix[k] !in "'\\"
    ensures Unquote(ShellEscape(value) + suffix) == Some(value + suffix)
  {
    QuotedThen(value, suffix);
    PlainWord(suffix);
  }

  lemma {:induction false} PlainWord(s: string)
    requires forall k :: 0 <= k < |s| ==> !ShellSpecial(s[k]) && s[k] !in "'\\"
    ensures Unquote(s) == Some(s)
  {
    if s != [] {
      PlainWord(s[1..]);
      assert [s[0]] + s[1..] == s;
    }
  }

  // ---------------------------------------------------------------- pmon

  /** `nvidia-smi pmon` lines that are kept: trimmed, non-empty and not a
      `#` header. */
  predicate KeptLine(l: string)
  {
    l != [] && !StartsWith(l, "#")
  }

  /** `lines.filter(...)` with the test above. */
  function KeepLines(lines: seq<string>): (r: seq<string>)
    ensures |r| <= |lines|
    ensures forall l :: l in r ==> l in lines && KeptLine(l)
    ensures forall l :: l in lines && KeptLine(l) ==> l in r
    ensures |lines| == 1 ==> r == (if KeptLine(lines[0]) then lines else [])
  {
    if lines == [] then []
    else
      var rest := KeepLines(lines[1..]);
      if KeptLine(lines[0]) then [lines[0]] + rest else rest
  }

  /** The filter keeps the order and the number of the kept lines: it
      works on each part of a concatenation alone. */
  lemma {:induction false} KeepLinesAppend(a: seq<string>, b: seq<string>)
    ensures KeepLines(a + b) == KeepLines(a) + KeepLines(b)
  {
    if a == [] {
      assert a + b == b;
    } else {
      assert (a + b)[1..] == a[1..] + b;
      KeepLinesAppend(a[1..], b);
    }
  }

  /** `lines.map((l) => l.trim())` */
  function TrimAll(lines: seq<string>): (r: seq<string>)
    ensures |r| == |lines|
    ensures forall k :: 0 <= k < |r| ==> r[k] == Trim(lines[k])
  {
    seq(|lines|, k requires 0 <= k < |lines| => Trim(lines[k]))
  }

  /** The lines the pmon loop walks over. */
  function PmonLines(out: string): seq<string>
  {
    KeepLines(TrimAll(Split(out, '\n')))
  }

  /** The loop only sees trimmed, non-empty, non-header lines, and sees
      every such line of the output. */
  lemma {:induction false} PmonLinesKept(out: string, k: nat)
    requires k < |Split(out, '\n')|
    ensures forall l :: l in PmonLines(out) ==> KeptLine(l) && Trim(l) == l
    ensures KeptLine(Trim(Split(out, '\n')[k])) ==> Trim(Split(out, '\n')[k]) in PmonLines(out)
  {
    var parts := Split(out, '\n');
    forall l | l in PmonLines(out) ensures Trim(l) == l {
      var j :| 0 <= j < |parts| && l == Trim(parts[j]);
      TrimIdempotent(parts[j]);
    }
    assert TrimAll(parts)[k] == Trim(parts[k]);
  }

  /** What one pmon line adds to the total: its SM column, when the line
      has at least five fields, its pid column parses to `pid`, and its SM
      column is neither "-" nor unparsable. */
  function SmOf(line: string, pid: int): (r: Option<int>)
    ensures r.Some? ==> |SplitWs(line)| >= 5 && ParseInt(SplitWs(line)[1]) == Some(pid)
    ensures r.Some? ==> SplitWs(line)[3] != "-" && r == ParseInt(SplitWs(line)[3])
  {
    var parts := SplitWs(line);
    if |parts| < 5 then None
    else if ParseInt(parts[1]) != Some(pid) then None
    else if parts[3] == [] || parts[3] == "-" then None
    else ParseInt(parts[3])
  }

  /** A line counts exactly when it has five fields, its pid column reads
      as `pid`, and its SM column is a number other than "-"; it then adds
      that number. */
  lemma {:induction false} SmOfCounts(line: string, pid: int)
    ensures SmOf(line, pid).Some? <==>
            && |SplitWs(line)| >= 5 && ParseInt(SplitWs(line)[1]) == Some(pid)
            && SplitWs(line)[3] != "-" && ParseInt(SplitWs(line)[3]).Some?
    ensures SmOf(line, pid).Some? ==> SmOf(line, pid) == ParseInt(SplitWs(line)[3])
  {
    var parts := SplitWs(line);
    if |parts| >= 5 && parts[3] == [] {
      assert ParseInt(parts[3]).None?;
    }
  }

  /** The sum the pmon loop accumulates over `lines`. */
  function PmonSum(lines: seq<string>, pid: int): int
  {
    if lines == [] then 0
    else PmonSum(lines[..|lines| - 1], pid) + SmOf(lines[|lines| - 1], pid).GetOr(0)
  }

  /** A listing where no line counts totals 0, and one whose counted SM
      values are all non-negative totals at least 0. */
  lemma {:induction false} PmonSumBounds(lines: seq<string>, pid: int)
    ensures (forall k :: 0 <= k < |lines| ==> SmOf(lines[k], pid).None?) ==> PmonSum(lines, pid) == 0
    ensures (forall k :: 0 <= k < |lines| ==> SmOf(lines[k], pid).GetOr(0) >= 0) ==> PmonSum(lines, pid) >= 0
  {
    if lines != [] {
      var init := lines[..|lines| - 1];
      assert forall k :: 0 <= k < |init| ==> init[k] == lines[k];
      PmonSumBounds(init, pid);
    }
  }

  /** Lines of other processes do not count: the total over a listing is
      the total over the lines of `pid` alone. */
  lemma {:induction false} PmonSumOtherPid(lines: seq<string>, line: string, pid: int)
    requires |SplitWs(line)| < 5 || ParseInt(SplitWs(line)[1]) != Some(pid)
    ensures PmonSum(lines + [line], pid) == PmonSum(lines, pid)
  {
    assert (lines + [line])[..|lines|] == lines;
  }

  lemma {:induction false} PmonSumSnoc(lines: seq<string>, i: nat, pid: int)
    requires i < |lines|
    ensures PmonSum(lines[..i + 1], pid) == PmonSum(lines[..i], pid) + SmOf(lines[i], pid).GetOr(0)
  {
    assert lines[..i + 1][..i] == lines[..i];
  }

  /** The loop of `_getGpuPercent` over the kept pmon lines. */
  method SumSm(lines: seq<string>, pid: int) returns (total: int)
    ensures total == PmonSum(lines, pid)
  {
    total := 0;
    var i := 0;
    while i < |lines|
      invariant 0 <= i <= |lines|
      invariant total == PmonSum(lines[..i], pid)
    {
      var value := SmOf(lines[i], pid);
      PmonSumSnoc(lines, i, pid);
      if value.Some? {
        total := total + value.value;
      }
      i := i + 1;
    }
    assert lines[..|lines|] == lines;
  }

  /** `Math.min(Math.max(v, 0), 100)` */
  function Clamp(v: int): (r: int)
    ensures 0 <= r <= 100
    ensures 0 <= v <= 100 ==> r == v
    ensures v < 0 ==> r == 0
    ensures v > 100 ==> r == 100
  {
    if v < 0 then 0 else if v > 100 then 100 else v
  }

  /** What `_getGpuPercent` returns: the pmon total capped at 100 when it is
      positive, else the GPU-wide utilisation clamped to [0, 100], else 0.
      `pmon` and `query` are the outputs of the two `nvidia-smi` calls, None
      when the call failed. */
  function GpuPercentOf(pid: int, pmon: Option<string>, query: Option<string>): (r: int)
    ensures 0 <= r <= 100
  {
    var total := if pmon.Some? then PmonSum(PmonLines(pmon.value), pid) else 0;
    if total > 0 then (if total < 100 then total else 100)
    else match query
      case None => 0
      case Some(q) =>
        match ParseInt(Trim(q))
        case None => 0
        case Some(v) => Clamp(v)
  }

  /** A positive per-process total decides alone: it is the answer, capped
      at 100, and the GPU-wide query is not consulted. */
  lemma {:induction false} GpuPercentFromPmon(pid: int, out: string, query1: Option<string>, query2: Option<string>)
    requires PmonSum(PmonLines(out), pid) > 0
    ensures GpuPercentOf(pid, Some(out), query1) == GpuPercentOf(pid, Some(out), query2)
    ensures PmonSum(PmonLines(out), pid) <= 100 ==> GpuPercentOf(pid, Some(out), query1) == PmonSum(PmonLines(out), pid)
    ensures PmonSum(PmonLines(out), pid) > 100 ==> GpuPercentOf(pid, Some(out), query1) == 100
  {
  }

  /** Without a positive per-process total, the GPU-wide reading is used
      as it is when it lies in [0, 100], a negative one gives 0 and one
      above 100 gives 100; a failed call or a reply with no number gives 0. */
  lemma {:induction false} GpuPercentFallback(pid: int, pmon: Option<string>, query: Option<string>)
    requires pmon.None? || PmonSum(PmonLines(pmon.value), pid) <= 0
    ensures query.None? || ParseInt(Trim(query.value)).None? ==> GpuPercentOf(pid, pmon, query) == 0
    ensures query.Some? && ParseInt(Trim(query.value)).Some? && 0 <= ParseInt(Trim(query.value)).value <= 100
            ==> GpuPercentOf(pid, pmon, query) == ParseInt(Trim(query.value)).value
    ensures query.Some? && ParseInt(Trim(query.value)).Some? && ParseInt(Trim(query.value)).value < 0
            ==> GpuPercentOf(pid, pmon, query) == 0
    ensures query.Some? && ParseInt(Trim(query.value)).Some? && ParseInt(Trim(query.value)).value > 100
            ==> GpuPercentOf(pid, pmon, query) == 100
  {
  }

  /** `_getGpuPercent` */
  method GpuPercent(pid: int, pmon: Option<string>, query: Option<string>) returns (r: int)
    ensures r == GpuPercentOf(pid, pmon, query) && 0 <= r <= 100
  {
    var total := 0;
    if pmon.Some? {
      total := SumSm(PmonLines(pmon.value), pid);
    }
    if total > 0 {
      return if total < 100 then total else 100;
    }
    if query.None? {
      return 0;
    }
    var value := ParseInt(Trim(query.value));
    if value.None? {
      return 0;
    }
    r := if value.value < 0 then 0 else if value.value > 100 then 100 else value.value;
  }

  // ---------------------------------------------------------------- process

  /** `_readPid`: the output of `cat` on the pid file, trimmed and parsed;
      None when `cat` failed or the text holds no number. */
  function ReadPid(catOut: Option<string>): Option<int>
  {
    match catOut
    case None => None
    case Some(out) => ParseInt(Trim(out))
  }

  datatype RunCheck = RunCheck(running: bool, pid: Option<int>)

  /** `_checkRunning`: no pid, or pid 0, means not running; otherwise the
      process runs exactly when `kill -0` on it succeeds. */
  function CheckRunning(pid: Option<int>, alive: int -> bool): (r: RunCheck)
    ensures r.pid.None? <==> pid.None? || pid == Some(0)
    ensures r.pid.Some? ==> r.pid == pid && r.running == alive(pid.value)
    ensures r.pid.None? ==> !r.running
  {
    if pid.None? || pid.value == 0 then RunCheck(false, None)
    else RunCheck(alive(pid.value), pid)
  }

  /** The whole check from the pid file's text, as a partner of the two
      steps above: a pid file whose text reads as a pid other than 0 is
      checked with `kill -0`, anything else is stopped. */
  lemma {:induction false} CheckRunningFromFile(catOut: string, pid: int, alive: int -> bool)
    requires ParseInt(Trim(catOut)) == Some(pid) && pid != 0
    ensures CheckRunning(ReadPid(Some(catOut)), alive) == RunCheck(alive(pid), Some(pid))
  {
  }

  lemma {:induction false} CheckRunningOfText(n: int, alive: int -> bool)
    requires n != 0
    ensures CheckRunning(ReadPid(Some(IntToString(n))), alive) == RunCheck(alive(n), Some(n))
  {
    ParseIntOfString(n, "");
    assert IntToString(n) + "" == IntToString(n);
    TrimIntString(n);
  }

  lemma {:induction false} TrimIntString(n: int)
    ensures Trim(IntToString(n)) == IntToString(n)
  {
    var s := IntToString(n);
    assert s[0] == '-' || IsDigit(s[0]);
    assert IsDigit(s[|s| - 1]);
    TrimFixed(s);
  }

  // ---------------------------------------------------------------- commands

  /** The `comfyui` settings the service reads; a missing or empty string
      setting is falsy and is written as None or "". */
  datatype ComfyConfig = ComfyConfig(
    dir: string,
    port: int,
    url: Option<string>,
    python: Option<string>,
    modelPaths: Option<string>,
    startCmd: Option<string>)

  predicate Truthy(o: Option<string>)
  {
    o.Some? && o.value != ""
  }

  /** `_comfyUrl` */
  function ComfyUrl(cfg: ComfyConfig): (r: string)
    ensures Truthy(cfg.url) ==> r == cfg.url.value
    ensures !Truthy(cfg.url) ==> r == "http://127.0.0.1:" + IntToString(cfg.port)
  {
    if Truthy(cfg.url) then cfg.url.value else "http://127.0.0.1:" + IntToString(cfg.port)
  }

  function ComfyDir(cfg: ComfyConfig, expand: string -> string): string
  {
    expand(cfg.dir)
  }

  function PidPath(cfg: ComfyConfig, expand: string -> string): string
  {
    ComfyDir(cfg, expand) + "/server.pid"
  }

  function LogPath(cfg: ComfyConfig, expand: string -> string): string
  {
    ComfyDir(cfg, expand) + "/server.log"
  }

  function ExtraModelPaths(cfg: ComfyConfig, expand: string -> string): string
  {
    if Truthy(cfg.modelPaths) then expand(cfg.modelPaths.value)
    else ComfyDir(cfg, expand) + "/extra_model_paths.yml"
  }

  /** The interpreters `_pythonPath` tries, in order. */
  function PythonCandidates(cfg: ComfyConfig, expand: string -> string): seq<string>
  {
    (if Truthy(cfg.python) then [expand(cfg.python.value)] else [])
    + [ComfyDir(cfg, expand) + "/venv312/bin/python", ComfyDir(cfg, expand) + "/venv/bin/python"]
  }

  /** `i` is the first candidate that exists. */
  predicate FirstExisting(c: seq<string>, exists_: string -> bool, i: int)
  {
    0 <= i < |c| && exists_(c[i]) && forall k :: 0 <= k < i ==> !exists_(c[k])
  }

  /** `_pythonPath`: the first existing candidate, or "python" when none
      exists. */
  function PythonPath(cfg: ComfyConfig, expand: string -> string, exists_: string -> bool): (r: string)
    ensures var c := PythonCandidates(cfg, expand);
            || (exists i :: FirstExisting(c, exists_, i) && r == c[i])
            || ((forall k :: 0 <= k < |c| ==> !exists_(c[k])) && r == "python")
  {
    var dir := ComfyDir(cfg, expand);
    var c := PythonCandidates(cfg, expand);
    if Truthy(cfg.python) && exists_(expand(cfg.python.value)) then
      assert FirstExisting(c, exists_, 0);
      expand(cfg.python.value)
    else if exists_(dir + "/venv312/bin/python") then
      var i := |c| - 2;
      assert FirstExisting(c, exists_, i);
      dir + "/venv312/bin/python"
    else if exists_(dir + "/venv/bin/python") then
      var i := |c| - 1;
      assert FirstExisting(c, exists_, i);
      dir + "/venv/bin/python"
    else "python"
  }

  /** The words of `_defaultStartCommand`, before they are joined with
      spaces, for the given interpreter, directory, model-paths file, log
      file, pid file and port. */
  function StartWords(python: string, dir: string, extra: string, log: string, pidPath: string, port: string)
    : seq<string>
  {
    [ "nohup", ShellEscape(python), ShellEscape(dir) + "/main.py",
      "--listen", "127.0.0.1", "--port", ShellEscape(port),
      "--cuda-malloc", "--extra-model-paths-config", ShellEscape(extra),
      "--log-stdout", ">", ShellEscape(log), "2>&1", "&",
      "echo", "$!", ">", ShellEscape(pidPath) ]
  }

  function DefaultStartWords(cfg: ComfyConfig, expand: string -> string, exists_: string -> bool): seq<string>
  {
    StartWords(PythonPath(cfg, expand, exists_), ComfyDir(cfg, expand), ExtraModelPaths(cfg, expand),
               LogPath(cfg, expand), PidPath(cfg, expand), IntToString(cfg.port))
  }

  /** `_startCommand`: the configured command, or the default one. */
  function StartCommand(cfg: ComfyConfig, expand: string -> string, exists_: string -> bool): (r: string)
    ensures Truthy(cfg.startCmd) ==> r == cfg.startCmd.value
    ensures !Truthy(cfg.startCmd) ==> r == Join(DefaultStartWords(cfg, expand, exists_), ' ')
  {
    if Truthy(cfg.startCmd) then cfg.startCmd.value
    else Join(DefaultStartWords(cfg, expand, exists_), ' ')
  }

  lemma {:induction false} MainPyPlain()
    ensures forall k :: 0 <= k < |"/main.py"| ==> !ShellSpecial("/main.py"[k]) && "/main.py"[k] !in "'\\"
  {
    var m := "/main.py";
    forall k | 0 <= k < |m| ensures !ShellSpecial(m[k]) && m[k] !in "'\\" {
      assert m[k] in "/mainpy.";
    }
  }

  /** The `main.py` word of the default start command names `main.py`
      inside the ComfyUI directory, whatever characters the directory
      holds. */
  lemma {:induction false} MainPyWord(dir: string)
    ensures Unquote(ShellEscape(dir) + "/main.py") == Some(dir + "/main.py")
  {
    MainPyPlain();
    ShellEscapeThen(dir, "/main.py");
  }

  /** The command of `_stop`: kill the pid the file names, then remove the
      file, only if the file exists. */
  function StopCommand(pidPath: string): (r: string)
    ensures exists p :: Unquote(p) == Some(pidPath) &&
                        r == "if [ -f " + p + " ]; then kill \"$(cat " + p + ")\" 2>/dev/null || true; rm -f " + p + "; fi"
  {
    ShellEscapeRoundTrip(pidPath);
    var p := ShellEscape(pidPath);
    "if [ -f " + p + " ]; then kill \"$(cat " + p + ")\" 2>/dev/null || true; rm -f " + p + "; fi"
  }

  // ---------------------------------------------------------------- service

  datatype Status = Running | Starting | Stopping | Stopped

  class ComfyUIService {
    var status: Status
    var cpuPercent: int
    var gpuPercent: int
    /** The `bash -lc` commands issued so far, in order. */
    var issued: seq<string>
    /** One-shot refresh timers scheduled by `toggle` and not yet fired. */
    var pendingRefreshes: nat

    /** The GPU reading is a percentage, and a stopped server shows no
        load. */
    predicate Valid()
      reads this
    {
      && 0 <= gpuPercent <= 100
      && (status == Stopped ==> cpuPercent == 0 && gpuPercent == 0)
    }

    constructor ()
      ensures Valid()
      ensures status == Stopped && cpuPercent == 0 && gpuPercent == 0
      ensures issued == [] && pendingRefreshes == 0
    {
      status := Stopped;
      cpuPercent := 0;
      gpuPercent := 0;
      issued := [];
      pendingRefreshes := 0;
    }

    /** `refresh`, given the pid `_readPid` produced, which pids `kill -0`
        accepts, the rounded `%cpu` that `ps` reports, and the outputs of
        the two `nvidia-smi` calls. */
    method Refresh(pid: Option<int>, alive: int -> bool, cpu: int,
                   pmon: Option<string>, query: Option<string>)
      requires Valid()
      modifies this
      ensures Valid()
      ensures issued == old(issued) && pendingRefreshes == old(pendingRefreshes)
      ensures var check := CheckRunning(pid, alive);
              && status == (if check.running then Running else Stopped)
              && (check.running ==> cpuPercent == cpu && gpuPercent == GpuPercentOf(pid.value, pmon, query))
              && (!check.running ==> cpuPercent == 0 && gpuPercent == 0)
    {
      var check := CheckRunning(pid, alive);
      status := if check.running then Running else Stopped;
      if check.running && check.pid.Some? {
        var gpu := GpuPercent(check.pid.value, pmon, query);
        cpuPercent := cpu;
        gpuPercent := gpu;
      } else {
        cpuPercent := 0;
        gpuPercent := 0;
      }
    }

    /** `toggle`: a running or starting server is stopped, any other is
        started; the status says which before the command runs, and a
        refresh is scheduled one second later. */
    method Toggle(cfg: ComfyConfig, expand: string -> string, exists_: string -> bool)
      requires Valid()
      modifies this
      ensures Valid()
      ensures cpuPercent == old(cpuPercent) && gpuPercent == old(gpuPercent)
      ensures pendingRefreshes == old(pendingRefreshes) + 1
      ensures old(status) in {Running, Starting} ==>
                status == Stopping && issued == old(issued) + [StopCommand(PidPath(cfg, expand))]
      ensures old(status) in {Stopped, Stopping} ==>
                status == Starting && issued == old(issued) + [StartCommand(cfg, expand, exists_)]
    {
      if status == Running || status == Starting {
        status := Stopping;
        issued := issued + [StopCommand(PidPath(cfg, expand))];
      } else {
        status := Starting;
        issued := issued + [StartCommand(cfg, expand, exists_)];
      }
      pendingRefreshes := pendingRefreshes + 1;
    }

    /** The refresh timer scheduled by `toggle` firing. */
    method RefreshFires(pid: Option<int>, alive: int -> bool, cpu: int,
                        pmon: Option<string>, query: Option<string>)
      requires Valid() && pendingRefreshes > 0
      modifies this
      ensures Valid()
      ensures pendingRefreshes == old(pendingRefreshes) - 1 && issued == old(issued)
      ensures status == (if CheckRunning(pid, alive).running then Running else Stopped)
    {
      pendingRefreshes := pendingRefreshes - 1;
      Refresh(pid, alive, cpu, pmon, query);
    }
  }
}
