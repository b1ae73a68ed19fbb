/** The system monitor widget (`widgets/SystemMonitor.tsx`): CPU usage
    from two successive samples of `/proc/stat`, memory use from
    `/proc/meminfo`, and the shared thresholds that colour both. */
module SystemMonitor {
  import opened Wrappers
  import opened Strings
  import opened JsRuntime

  /** A JavaScript number as it arises here: a finite integer, or not
      finite (NaN, or -Infinity from a negative number divided by 0). */
  datatype Num = Finite(value: int) | NonFinite

  function Add(a: Num, b: Num): Num
  {
    if a.Finite? && b.Finite? then Finite(a.value + b.value) else NonFinite
  }

  function Sub(a: Num, b: Num): Num
  {
    if a.Finite? && b.Finite? then Finite(a.value - b.value) else NonFinite
  }

  // ---------------------------------------------------------------- /proc/stat

  /** `Number(token)` for a token without spaces: a run of decimal digits
      (the empty one included) is its value, anything else NaN. */
  function NumberOf(token: string): Num
  {
    if AllDigits(token) then Finite(DigitsValue(token)) else NonFinite
  }

  /** `.map(Number)` */
  function Numbers(tokens: seq<string>): (vals: seq<Num>)
    ensures |vals| == |tokens|
  {
    seq(|tokens|, k requires 0 <= k < |tokens| => NumberOf(tokens[k]))
  }

  /** `statContent.split("\n")[0].split(/\s+/).slice(1).map(Number)` */
  function CpuValues(stat: string): seq<Num>
  {
    Numbers(SplitWs(Split(stat, '\n')[0])[1..])
  }

  /** `vals[i]` in an addition: a missing field is `undefined`, so NaN. */
  function At(vals: seq<Num>, i: nat): Num
  {
    if i < |vals| then vals[i] else NonFinite
  }

  /** `vals[i] || 0`: a missing field, NaN and 0 all give 0. */
  function OrZero(vals: seq<Num>, i: nat): Num
  {
    if i < |vals| && vals[i].Finite? then vals[i] else Finite(0)
  }

  /** Idle time: the fourth field plus, when there is one, the fifth
      (iowait). */
  function Idle(vals: seq<Num>): Num
  {
    Add(At(vals, 3), OrZero(vals, 4))
  }

  /** `vals.reduce((a, b) => a + b, 0)`, from the left. */
  function Sum(vals: seq<Num>): Num
  {
    if vals == [] then Finite(0) else Add(Sum(vals[..|vals| - 1]), vals[|vals| - 1])
  }

  /** The busy share since the previous sample, as a rounded percentage,
      when the total advanced; 0 when it did not (or is not a number). */
  function CpuPercent(prevIdle: Num, prevTotal: Num, idle: Num, total: Num): (r: Num)
    ensures total.NonFinite? || prevTotal.NonFinite? ==> r == Finite(0)
    ensures r.NonFinite? ==> idle.NonFinite? || prevIdle.NonFinite?
    ensures r.Finite? && r.value != 0 ==> total.Finite? && prevTotal.Finite? && prevTotal.value < total.value
    ensures && prevIdle.Finite? && prevTotal.Finite? && idle.Finite? && total.Finite?
            && prevTotal.value < total.value && 0 <= idle.value - prevIdle.value <= total.value - prevTotal.value
            ==> r.Finite? && 0 <= r.value <= 100
  {
    var totalDelta := Sub(total, prevTotal);
    var idleDelta := Sub(idle, prevIdle);
    if totalDelta.Finite? && totalDelta.value > 0 then
      if idleDelta.Finite? then
        assert 0 <= idleDelta.value <= totalDelta.value ==>
                 0.0 <= idleDelta.value as real / totalDelta.value as real <= 1.0 by {
          if 0 <= idleDelta.value <= totalDelta.value {
            ShareBounds(idleDelta.value, totalDelta.value);
          }
        }
        Finite(Round((1.0 - idleDelta.value as real / totalDelta.value as real) * 100.0))
      else NonFinite
    else Finite(0)
  }

  /** A part of a positive whole, as a fraction: between 0 and 1, and
      exactly those at the ends. */
  lemma {:induction false} ShareBounds(part: int, whole: int)
    requires 0 <= part <= whole && 0 < whole
    ensures var r := part as real / whole as real;
            && 0.0 <= r <= 1.0
            && (part == 0 ==> r == 0.0) && (part == whole ==> r == 1.0)
  {
    var w, p := whole as real, part as real;
    var r := p / w;
    assert r * w == p;
    assert r <= 1.0 by {
      assert r * w <= 1.0 * w;
    }
  }

  /** Between two samples whose idle time grew by no more than the total,
      the percentage is a whole number from 0 to 100: 0 when the machine
      was idle throughout, 100 when it was never idle. A total that did not
      advance reads 0. */
  lemma {:induction false} CpuPercentRange(prevIdle: int, prevTotal: int, idle: int, total: int)
    ensures total <= prevTotal ==>
              CpuPercent(Finite(prevIdle), Finite(prevTotal), Finite(idle), Finite(total)) == Finite(0)
    ensures prevTotal < total && 0 <= idle - prevIdle <= total - prevTotal ==>
              var p := CpuPercent(Finite(prevIdle), Finite(prevTotal), Finite(idle), Finite(total));
              && p.Finite? && 0 <= p.value <= 100
              && (idle - prevIdle == total - prevTotal ==> p.value == 0)
              && (idle == prevIdle ==> p.value == 100)
  {
    if prevTotal < total && 0 <= idle - prevIdle <= total - prevTotal {
      ShareBounds(idle - prevIdle, total - prevTotal);
    }
  }

  /** The CPU sampler: the module-level `prevIdle` and `prevTotal`, shared
      by every widget. */
  class CpuSampler {
    var prevIdle: Num
    var prevTotal: Num

    constructor ()
      ensures prevIdle == Finite(0) && prevTotal == Finite(0)
    {
      prevIdle := Finite(0);
      prevTotal := Finite(0);
    }

    /** The CPU part of `getStats`: the percentage since the previous
        sample, after which this sample becomes the previous one. */
    method Sample(stat: string) returns (cpu: Num)
      modifies this
      ensures prevIdle == Idle(CpuValues(stat)) && prevTotal == Sum(CpuValues(stat))
      ensures cpu == CpuPercent(old(prevIdle), old(prevTotal), prevIdle, prevTotal)
    {
      var vals := CpuValues(stat);
      var idle := Add(At(vals, 3), OrZero(vals, 4));
      var total := Finite(0);
      var i := 0;
      while i < |vals|
        invariant 0 <= i <= |vals|
        invariant total == Sum(vals[..i])
      {
        assert vals[..i + 1][..i] == vals[..i];
        total := Add(total, vals[i]);
        i := i + 1;
      }
      assert vals[..i] == vals;
      var idleDelta := Sub(idle, prevIdle);
      var totalDelta := Sub(total, prevTotal);
      if totalDelta.Finite? && totalDelta.value > 0 {
        if idleDelta.Finite? {
          cpu := Finite(Round((1.0 - idleDelta.value as real / totalDelta.value as real) * 100.0));
        } else {
          cpu := NonFinite;
        }
      } else {
        cpu := Finite(0);
      }
      prevIdle := idle;
      prevTotal := total;
    }
  }

  /** The aggregate line `/proc/stat` starts with: `cpu`, two spaces, and
      the counters separated by single spaces. */
  function StatLine(counters: seq<nat>): string
  {
    "cpu " + Fields(counters)
  }

  function Fields(counters: seq<nat>): string
  {
    if counters == [] then [] else " " + NatToString(counters[0]) + Fields(counters[1..])
  }

  /** The plain sum of the counters. */
  function Total(counters: seq<nat>): nat
  {
    if counters == [] then 0 else Total(counters[..|counters| - 1]) + counters[|counters| - 1]
  }

  lemma {:induction false} WordPrefixOfWord(w: string, t: string)
    requires NoSpace(w)
    requires t == [] || IsSpace(t[0])
    ensures WordPrefixLen(w + t) == |w|
  {
    if w != [] {
      assert (w + t)[1..] == w[1..] + t;
      WordPrefixOfWord(w[1..], t);
    } else {
      assert w + t == t;
    }
  }

  /** `split(/\s+/)` takes a word and the run of spaces after it off the
      front. */
  lemma {:induction false} SplitWsWord(w: string, sp: string, rest: string)
    requires NoSpace(w) && sp != [] && AllSpace(sp)
    requires rest == [] || !IsSpace(rest[0])
    ensures SplitWs(w + sp + rest) == [w] + SplitWs(rest)
  {
    var s := w + sp + rest;
    assert s == w + (sp + rest);
    WordPrefixOfWord(w, sp + rest);
    assert s[|w|..] == sp + rest;
    SpacePrefixOfSpaces(sp, rest);
    assert s[..|w|] == w;
    assert s[|w| + |sp|..] == rest;
  }

  lemma {:induction false} NatToStringNoSpace(n: nat)
    ensures NoSpace(NatToString(n)) && !IsSpace(NatToString(n)[0])
    ensures forall k :: 0 <= k < |NatToString(n)| ==> NatToString(n)[k] != '\n'
  {
    var d := NatToString(n);
    assert forall k :: 0 <= k < |d| ==> IsDigit(d[k]);
  }

  /** `words` spells out `counters`, one decimal rendering each. */
  predicate Spelled(words: seq<string>, counters: seq<nat>)
  {
    |words| == |counters| && forall k :: 0 <= k < |words| ==> words[k] == NatToString(counters[k])
  }

  lemma {:induction false} SpelledCons(words: seq<string>, counters: seq<nat>)
    requires words != [] && counters != []
    requires words[0] == NatToString(counters[0]) && Spelled(words[1..], counters[1..])
    ensures Spelled(words, counters)
  {
    forall k | 1 <= k < |words|
      ensures words[k] == NatToString(counters[k])
    {
      assert words[1..][k - 1] == words[k];
    }
  }

  /** The counters read back from a first one and the fields after it. */
  lemma {:induction false} SplitWsFields(counters: seq<nat>)
    requires counters != []
    ensures Spelled(SplitWs(NatToString(counters[0]) + Fields(counters[1..])), counters)
    decreases |counters|
  {
    var d, vs := NatToString(counters[0]), counters[1..];
    NatToStringNoSpace(counters[0]);
    if vs == [] {
      assert d + Fields(vs) == d + [];
      WordPrefixOfWord(d, []);
      assert d + [] == d;
    } else {
      var next := NatToString(vs[0]) + Fields(vs[1..]);
      NatToStringNoSpace(vs[0]);
      assert d + Fields(vs) == d + " " + next;
      SplitWsWord(d, " ", next);
      SplitWsFields(vs);
      var words := SplitWs(d + Fields(vs));
      assert words == [d] + SplitWs(next);
      assert words[1..] == SplitWs(next);
      SpelledCons(words, counters);
    }
  }

  lemma {:induction false} FieldsNoNewline(counters: seq<nat>)
    ensures '\n' !in Fields(counters)
    decreases |counters|
  {
    if counters != [] {
      NatToStringNoSpace(counters[0]);
      FieldsNoNewline(counters[1..]);
    }
  }

  lemma {:induction false} SumOfCounters(vals: seq<Num>, counters: seq<nat>)
    requires |vals| == |counters| && forall k :: 0 <= k < |vals| ==> vals[k] == Finite(counters[k])
    ensures Sum(vals) == Finite(Total(counters))
    decreases |counters|
  {
    if counters != [] {
      SumOfCounters(vals[..|vals| - 1], counters[..|counters| - 1]);
    }
  }

  /** Reading a `/proc/stat` whose first line is the aggregate line gives
      back its counters: idle is the fourth plus the fifth, and the total
      is their sum. */
  lemma {:induction false} CpuValuesOfStat(counters: seq<nat>, more: string)
    requires |counters| >= 5
    ensures var vals := CpuValues(StatLine(counters) + "\n" + more);
            && |vals| == |counters| && (forall k :: 0 <= k < |vals| ==> vals[k] == Finite(counters[k]))
            && Idle(vals) == Finite(counters[3] + counters[4])
            && Sum(vals) == Finite(Total(counters))
  {
    var line := StatLine(counters);
    FirstLineOfStat(counters, more);
    WordsOfStatLine(counters);
    var words := SplitWs(line)[1..];
    var vals := CpuValues(line + "\n" + more);
    assert vals == Numbers(words);
    forall k | 0 <= k < |vals|
      ensures vals[k] == Finite(counters[k])
    {
      NatToStringValue(counters[k]);
    }
    SumOfCounters(vals, counters);
  }

  lemma {:induction false} FirstLineOfStat(counters: seq<nat>, more: string)
    ensures Split(StatLine(counters) + "\n" + more, '\n')[0] == StatLine(counters)
  {
    var line := StatLine(counters);
    FieldsNoNewline(counters);
    assert '\n' !in line by {
      assert line == "cpu " + Fields(counters);
    }
    SplitCons(line, more, '\n');
  }

  lemma {:induction false} WordsOfStatLine(counters: seq<nat>)
    requires counters != []
    ensures Spelled(SplitWs(StatLine(counters))[1..], counters)
  {
    var d := NatToString(counters[0]);
    var rest := d + Fields(counters[1..]);
    NatToStringNoSpace(counters[0]);
    assert rest[0] == d[0];
    assert StatLine(counters) == "cpu" + "  " + rest;
    SplitWsWord("cpu", "  ", rest);
    SplitWsFields(counters);
    var words := SplitWs(StatLine(counters));
    assert words == ["cpu"] + SplitWs(rest);
    assert words[1..] == SplitWs(rest);
  }

  /** Two samples of the aggregate line in a row: the second reads the
      busy share of the time between them. */
  method SampleTwice(sampler: CpuSampler, first: seq<nat>, second: seq<nat>, more: string)
    returns (cpu: Num)
    requires |first| >= 5 && |second| >= 5
    modifies sampler
    ensures cpu == CpuPercent(Finite(first[3] + first[4]), Finite(Total(first)),
                              Finite(second[3] + second[4]), Finite(Total(second)))
    ensures sampler.prevIdle == Finite(second[3] + second[4]) && sampler.prevTotal == Finite(Total(second))
  {
    CpuValuesOfStat(first, more);
    CpuValuesOfStat(second, more);
    var _ := sampler.Sample(StatLine(first) + "\n" + more);
    cpu := sampler.Sample(StatLine(second) + "\n" + more);
  }

  // ---------------------------------------------------------------- /proc/meminfo

  /** The index of the first line starting with `key`, from `from` on. */
  function FirstWithPrefix(lines: seq<string>, key: string, from: nat): (r: Option<nat>)
    requires from <= |lines|
    ensures r.None? <==> forall k :: from <= k < |lines| ==> !StartsWith(lines[k], key)
    ensures r.Some? ==> from <= r.value < |lines| && StartsWith(lines[r.value], key)
                        && forall k :: from <= k < r.value ==> !StartsWith(lines[k], key)
    decreases |lines| - from
  {
    if from == |lines| then None
    else if StartsWith(lines[from], key) then Some(from)
    else FirstWithPrefix(lines, key, from + 1)
  }

  /** `getValue(key)`: the first run of digits on the first line that
      starts with `key`; 0 without such a line or without digits on it. */
  function GetValue(lines: seq<string>, key: string): (r: nat)
    ensures (forall k :: 0 <= k < |lines| ==> !StartsWith(lines[k], key)) ==> r == 0
    ensures r != 0 ==> exists i :: && 0 <= i < |lines| && StartsWith(lines[i], key)
                                   && (forall k :: 0 <= k < i ==> !StartsWith(lines[k], key))
                                   && exists j :: 0 <= j < |lines[i]| && IsDigit(lines[i][j])
  {
    match FirstWithPrefix(lines, key, 0)
    case None => 0
    case Some(i) =>
      match FirstDigitRun(lines[i])
      case None => 0
      case Some(d) => DigitsValue(d)
  }

  lemma {:induction false} FirstDigitIndexAfter(a: string, b: string)
    requires forall k :: 0 <= k < |a| ==> !IsDigit(a[k])
    ensures FirstDigitIndex(a + b) == |a| + FirstDigitIndex(b)
  {
    if a != [] {
      assert (a + b)[1..] == a[1..] + b;
      FirstDigitIndexAfter(a[1..], b);
    } else {
      assert a + b == b;
    }
  }

  /** The first run of digits of `heading value kB` is the value, when
      the heading has no digit. */
  lemma {:induction false} DigitRunOfEntry(heading: string, n: nat)
    requires forall k :: 0 <= k < |heading| ==> !IsDigit(heading[k])
    ensures FirstDigitRun(heading + NatToString(n) + " kB") == Some(NatToString(n))
  {
    var d := NatToString(n);
    var line := heading + NatToString(n) + " kB";
    assert line == heading + (d + " kB");
    FirstDigitIndexAfter(heading, d + " kB");
    assert (d + " kB")[0] == d[0];
    DigitPrefixOfDigits(d, " kB");
    assert (d + " kB")[..|d|] == d;
    assert line[|heading|..] == d + " kB";
  }

  /** A line `heading value kB` yields its value, when it is the first line
      starting with `key` and its heading (the key and its padding) has no
      digit. */
  lemma {:induction false} GetValueOfEntry(lines: seq<string>, key: string, i: nat, heading: string, n: nat)
    requires i < |lines| && lines[i] == heading + NatToString(n) + " kB"
    requires StartsWith(heading, key) && forall k :: 0 <= k < |heading| ==> !IsDigit(heading[k])
    requires forall k :: 0 <= k < i ==> !StartsWith(lines[k], key)
    ensures GetValue(lines, key) == n
  {
    assert StartsWith(lines[i], key) by {
      assert lines[i][..|heading|] == heading;
      assert lines[i][..|key|] == heading[..|key|];
    }
    DigitRunOfEntry(heading, n);
    NatToStringValue(n);
  }

  /** `memTotalKB - memAvailKB` */
  function MemUsed(totalKB: nat, availKB: nat): int
  {
    totalKB - availKB
  }

  /** `Math.round((memUsedKB / memTotalKB) * 100)`: not finite when the
      total is 0. */
  function MemPercent(totalKB: nat, availKB: nat): (r: Num)
    ensures r.NonFinite? <==> totalKB == 0
    ensures 0 < totalKB && availKB <= totalKB ==> 0 <= r.value <= 100
  {
    if totalKB == 0 then NonFinite
    else
      assert availKB <= totalKB ==>
               0.0 <= MemUsed(totalKB, availKB) as real / totalKB as real <= 1.0 by {
        if availKB <= totalKB {
          ShareBounds(totalKB - availKB, totalKB);
        }
      }
      Finite(Round(MemUsed(totalKB, availKB) as real / totalKB as real * 100.0))
  }

  /** With no more available than in total, the percentage in use is a
      whole number from 0 (all available) to 100 (none available). */
  lemma {:induction false} MemPercentRange(totalKB: nat, availKB: nat)
    requires 0 < totalKB && availKB <= totalKB
    ensures var p := MemPercent(totalKB, availKB);
            && p.Finite? && 0 <= p.value <= 100
            && (availKB == totalKB ==> p.value == 0)
            && (availKB == 0 ==> p.value == 100)
  {
    ShareBounds(totalKB - availKB, totalKB);
  }

  // ---------------------------------------------------------------- stats

  datatype Stats = Stats(cpuPercent: Num, memPercent: Num, memUsedGB: real, memTotalGB: real)

  /** What `getStats` returns once both files are read, given the
      previous CPU sample. */
  function StatsOf(prevIdle: Num, prevTotal: Num, stat: string, meminfo: string): (s: Stats)
  {
    var vals := CpuValues(stat);
    var lines := Split(meminfo, '\n');
    var totalKB := GetValue(lines, "MemTotal:");
    var availKB := GetValue(lines, "MemAvailable:");
    Stats(CpuPercent(prevIdle, prevTotal, Idle(vals), Sum(vals)),
          MemPercent(totalKB, availKB),
          MemUsed(totalKB, availKB) as real / 1024.0 / 1024.0,
          totalKB as real / 1024.0 / 1024.0)
  }

  /** The severity `getCpuClass` and `getMemClass` both give a
      percentage: comparisons with a number that is not finite are false. */
  function Level(p: Num): (r: string)
    ensures r == "critical" <==> p.Finite? && p.value >= 90
    ensures r == "normal" <==> !(p.Finite? && p.value >= 50)
    ensures p.NonFinite? ==> r == "normal"
  {
    if p.Finite? && p.value >= 90 then "critical"
    else if p.Finite? && p.value >= 70 then "high"
    else if p.Finite? && p.value >= 50 then "medium"
    else "normal"
  }

  function Rank(level: string): nat
  {
    if level == "critical" then 3 else if level == "high" then 2 else if level == "medium" then 1 else 0
  }

  function CpuClass(s: Stats): seq<string>
  {
    ["sysmon-stat", Level(s.cpuPercent)]
  }

  function MemClass(s: Stats): seq<string>
  {
    ["sysmon-stat", Level(s.memPercent)]
  }

  /** The levels rise with the percentage at 50, 70 and 90, never fall as
      it grows, and a value that is not a number shows as normal; CPU and
      memory share the scale. */
  lemma {:induction false} LevelScale(p: int, q: int, s: Stats)
    ensures Rank(Level(Finite(p))) == (if p >= 90 then 3 else if p >= 70 then 2 else if p >= 50 then 1 else 0)
    ensures p <= q ==> Rank(Level(Finite(p))) <= Rank(Level(Finite(q)))
    ensures Level(NonFinite) == "normal"
    ensures s.cpuPercent == s.memPercent ==> CpuClass(s) == MemClass(s)
  {
    assert "critical" != "high" && "critical" != "medium" && "critical" != "normal";
    assert "high" != "medium" && "high" != "normal" && "medium" != "normal";
  }

  /** A GLib main-loop source id; GLib never hands out 0. */
  type SourceId = n: nat | n > 0 witness 1

  /** The widget: its stats, its poll, and the shared sampler. */
  class SystemMonitorWidget {
    const sampler: CpuSampler
    var stats: Stats
    var timer: SourceId
    /** Sources passed to `GLib.source_remove`, in order. */
    var removed: seq<SourceId>

    /** The widget starts from zeros and starts the two-second poll; its
        first reading arrives through `Refresh`. */
    constructor (sampler: CpuSampler, poll: SourceId)
      ensures this.sampler == sampler && stats == Stats(Finite(0), Finite(0), 0.0, 0.0)
      ensures timer == poll && removed == []
    {
      this.sampler := sampler;
      stats := Stats(Finite(0), Finite(0), 0.0, 0.0);
      timer := poll;
      removed := [];
    }

    /** `refresh`, given what reading `/proc/stat` and `/proc/meminfo`
        gave. A failed read keeps the old stats; a failure of the second
        read comes after the CPU sample has already been taken. */
    method Refresh(stat: Result<string>, meminfo: Result<string>)
      modifies this, sampler
      ensures stat.Err? ==> stats == old(stats) && sampler.prevIdle == old(sampler.prevIdle)
                            && sampler.prevTotal == old(sampler.prevTotal)
      ensures stat.Ok? ==> sampler.prevIdle == Idle(CpuValues(stat.value))
                           && sampler.prevTotal == Sum(CpuValues(stat.value))
      ensures stat.Ok? && meminfo.Err? ==> stats == old(stats)
      ensures stat.Ok? && meminfo.Ok? ==>
                stats == StatsOf(old(sampler.prevIdle), old(sampler.prevTotal), stat.value, meminfo.value)
      ensures timer == old(timer) && removed == old(removed)
    {
      if stat.Err? {
        return;
      }
      var cpu := sampler.Sample(stat.value);
      if meminfo.Err? {
        return;
      }
      var lines := Split(meminfo.value, '\n');
      var totalKB := GetValue(lines, "MemTotal:");
      var availKB := GetValue(lines, "MemAvailable:");
      stats := Stats(cpu, MemPercent(totalKB, availKB),
                     MemUsed(totalKB, availKB) as real / 1024.0 / 1024.0,
                     totalKB as real / 1024.0 / 1024.0);
    }

    /** The cleanup handler: removes the poll. */
    method Cleanup()
      modifies this
      ensures removed == old(removed) + [timer] && timer == old(timer) && stats == old(stats)
    {
      removed := removed + [timer];
    }
  }
}
