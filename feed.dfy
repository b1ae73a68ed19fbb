/** The feed service: it fetches Google-Reader-style JSON items from a
    FreshRSS endpoint, turns them into weighted articles, keeps only http and
    https links, and shows one article at a time, chosen by a roulette pick
    over the weights. The HTTP request, `Math.exp`, `Math.random`, the clock
    and GLib's URI parser are parameters. */
module Feed {
  import opened Wrappers
  import opened Strings

  // ---------------------------------------------------------------- data

  /** One decoded JSON item. A missing string field is the empty string,
      which JavaScript treats as falsy just like `undefined`. `alternate` and
      `canonical` hold the `href` of each link object, in order. */
  datatype Item = Item(
    id: string,
    title: string,
    published: int,
    origin: string,
    summary: string,
    alternate: seq<string>,
    canonical: seq<string>)

  datatype Article = Article(
    id: string,
    title: string,
    source: string,
    url: string,
    published: int,
    weight: real)

  datatype Status = Loading | Ready | Error

  /** The outcome of the curl request and `JSON.parse`: the `items` of the
      reply (an absent `items` is the empty list), or the thrown message. */
  datatype Reply = Fetched(items: seq<Item>) | Failed(message: string)

  /** Three hours, in seconds. */
  const HalfLife: int := 3 * 3600

  const HnPrefix: string := "https://news.ycombinator.com/item?id="

  // ---------------------------------------------------------------- URLs

  /** A `scheme` of section 3.1 of RFC 3986: a letter, then letters, digits,
      `+`, `-` and `.`. */
  predicate IsSchemeName(s: string)
  {
    s != [] && ('a' <= Lower(s[0]) <= 'z')
    && forall k :: 0 < k < |s| ==>
         ('a' <= Lower(s[k]) <= 'z') || IsDigit(s[k]) || s[k] in "+-."
  }

  /** The scheme GLib reports for an absolute URI: the text before the first
      `:`, if it is a scheme name, in lower case. */
  function SchemeOf(u: string): Option<string>
  {
    var i := CharIndex(u, ':');
    if i < |u| && IsSchemeName(u[..i]) then Some(LowerStr(u[..i])) else None
  }

  predicate HttpScheme(u: string)
  {
    SchemeOf(u) == Some("http") || SchemeOf(u) == Some("https")
  }

  /** What may be stored as an article's link: nothing, or an http(s) URL. */
  predicate UrlSafe(u: string)
  {
    u == "" || HttpScheme(u)
  }

  /** `_validateUrl`: the trimmed URL when GLib parses it (`parses`) and its
      scheme is http or https; "" otherwise, and for an empty input. */
  function ValidateUrl(url: string, parses: string -> bool): (r: string)
    ensures url == "" ==> r == ""
    ensures r == "" || (r == Trim(url) && HttpScheme(r))
    ensures r != "" <==> url != "" && parses(Trim(url)) && HttpScheme(Trim(url))
  {
    if url == "" then ""
    else
      var t := Trim(url);
      if parses(t) && HttpScheme(t) then t else ""
  }

  /** An accepted link starts with `http:` or `https:`, in any letter case. */
  lemma {:induction false} AcceptedUrlPrefix(u: string)
    requires HttpScheme(u)
    ensures (|u| >= 5 && LowerStr(u[..5]) == "http:") || (|u| >= 6 && LowerStr(u[..6]) == "https:")
  {
    var i := CharIndex(u, ':');
    assert LowerStr(u[..i]) == "http" || LowerStr(u[..i]) == "https";
    assert u[..i + 1] == u[..i] + [':'];
    assert LowerStr(u[..i + 1]) == LowerStr(u[..i]) + [':'];
  }

  // ---------------------------------------------------------------- Hacker News

  /** The regular expression `https:\/\/news\.ycombinator\.com\/item\?id=\d+`
      can start matching at `i`. */
  predicate HnAt(s: string, i: int)
  {
    OccursAt(s, HnPrefix, i) && i + |HnPrefix| < |s| && IsDigit(s[i + |HnPrefix|])
  }

  /** The leftmost position at or after `from` where the expression matches. */
  function HnIndex(s: string, from: nat): (r: Option<nat>)
    ensures r.Some? ==> from <= r.value && HnAt(s, r.value)
    ensures forall i :: from <= i && (r.None? || i < r.value) ==> !HnAt(s, i)
    decreases |s| - from
  {
    if from >= |s| then None
    else if HnAt(s, from) then Some(from)
    else HnIndex(s, from + 1)
  }

  /** The text of the first match: the prefix and its whole run of digits. */
  function HnMatch(s: string): (r: Option<string>)
    ensures r.None? <==> forall i :: !HnAt(s, i)
    ensures r.Some? ==> |r.value| > |HnPrefix| && r.value[..|HnPrefix|] == HnPrefix
                        && AllDigits(r.value[|HnPrefix|..])
  {
    match HnIndex(s, 0)
    case None => None
    case Some(i) =>
      var j := i + |HnPrefix|;
      var n := DigitPrefixLen(s[j..]);
      assert s[i..j] == HnPrefix;
      var m := s[i..j + n];
      assert m[..|HnPrefix|] == HnPrefix;
      assert m[|HnPrefix|..] == s[j..][..n];
      Some(m)
  }

  /** The href `alternate[0]`, else `canonical[0]`, else "" (a falsy href
      falls through to the next one). */
  function LinkOf(it: Item): (r: string)
    ensures |it.alternate| > 0 && it.alternate[0] != "" ==> r == it.alternate[0]
    ensures r == "" || (|it.alternate| > 0 && r == it.alternate[0]) || (|it.canonical| > 0 && r == it.canonical[0])
    ensures r == "" <==> (|it.alternate| == 0 || it.alternate[0] == "") && (|it.canonical| == 0 || it.canonical[0] == "")
  {
    if |it.alternate| > 0 && it.alternate[0] != "" then it.alternate[0]
    else if |it.canonical| > 0 && it.canonical[0] != "" then it.canonical[0]
    else ""
  }

  predicate IsHackerNews(it: Item)
  {
    Contains(it.origin, "Hacker News")
  }

  /** `_extractUrl`: a Hacker News item links to the comment page quoted in
      its summary; every other item to its first link. The result is always
      validated. */
  function ExtractUrl(it: Item, parses: string -> bool): (r: string)
    ensures UrlSafe(r)
    ensures r != "" ==>
      || (IsHackerNews(it) && HnMatch(it.summary) == Some(r))
      || (|it.alternate| > 0 && r == Trim(it.alternate[0]))
      || (|it.canonical| > 0 && r == Trim(it.canonical[0]))
  {
    if IsHackerNews(it) && HnMatch(it.summary).Some? then
      var m := HnMatch(it.summary).value;
      var r := ValidateUrl(m, parses);
      assert r != "" ==> r == Trim(m) == m by {
        if r != "" { HnMatchTrimmed(m); }
      }
      r
    else ValidateUrl(LinkOf(it), parses)
  }

  lemma {:induction false} HnMatchTrimmed(m: string)
    requires |m| > |HnPrefix| && m[..|HnPrefix|] == HnPrefix && AllDigits(m[|HnPrefix|..])
    ensures Trim(m) == m
  {
    assert m[0] == m[..|HnPrefix|][0] == 'h';
    assert IsDigit(m[|m| - 1]);
    TrimFixed(m);
  }

  lemma {:induction false} HnMatchScheme(m: string)
    requires |m| > |HnPrefix| && m[..|HnPrefix|] == HnPrefix
    ensures SchemeOf(m) == Some("https")
  {
    assert m[..5] == m[..|HnPrefix|][..5] == "https";
    assert m[5] == m[..|HnPrefix|][5] == ':';
    CharIndexAfter("https", m[5..], ':');
    assert m == "https" + m[5..];
    assert LowerStr("https") == "https";
  }

  /** A Hacker News item whose summary quotes a comment page that GLib parses
      links to exactly that page, whatever its other links are. */
  lemma {:induction false} HackerNewsLink(it: Item, parses: string -> bool)
    requires IsHackerNews(it) && HnMatch(it.summary).Some?
    requires parses(HnMatch(it.summary).value)
    ensures ExtractUrl(it, parses) == HnMatch(it.summary).value
  {
    var m := HnMatch(it.summary).value;
    HnMatchTrimmed(m);
    HnMatchScheme(m);
  }

  /** A present `alternate` link is the only candidate outside the Hacker
      News case: if it fails validation, the canonical link is not tried. */
  lemma {:induction false} AlternateShadowsCanonical(it: Item, parses: string -> bool)
    requires !(IsHackerNews(it) && HnMatch(it.summary).Some?)
    requires |it.alternate| > 0 && it.alternate[0] != ""
    ensures ExtractUrl(it, parses) == ValidateUrl(it.alternate[0], parses)
    ensures !HttpScheme(Trim(it.alternate[0])) ==> ExtractUrl(it, parses) == ""
  {
  }

  /** Outside the Hacker News case and without a non-empty alternate
      link, the canonical link is validated, and with neither link the
      result is "". */
  lemma {:induction false} CanonicalFallback(it: Item, parses: string -> bool)
    requires !(IsHackerNews(it) && HnMatch(it.summary).Some?)
    requires |it.alternate| == 0 || it.alternate[0] == ""
    ensures |it.canonical| > 0 ==> ExtractUrl(it, parses) == ValidateUrl(it.canonical[0], parses)
    ensures |it.canonical| == 0 || it.canonical[0] == "" ==> ExtractUrl(it, parses) == ""
  {
  }

  /** A Hacker News comment page that GLib rejects gives "": the item's
      other links are not tried. */
  lemma {:induction false} HackerNewsNoFallback(it: Item, parses: string -> bool)
    requires IsHackerNews(it) && HnMatch(it.summary).Some?
    requires !parses(HnMatch(it.summary).value)
    ensures ExtractUrl(it, parses) == ""
  {
    HnMatchTrimmed(HnMatch(it.summary).value);
  }

  // ---------------------------------------------------------------- articles

  /** `Math.exp(-0.693147 * age / HALF_LIFE)`, with `exp` standing for
      `Math.exp` and `now` for `Date.now() / 1000`. */
  function Weight(now: real, published: int, exp: real -> real): (w: real)
    ensures published as real == now ==> w == exp(0.0)
    ensures published as real == now - HalfLife as real ==> w == exp(-0.693147)
  {
    exp(-0.693147 * (now - published as real) / HalfLife as real)
  }

  /** With an increasing `exp`, a newer article never weighs less. */
  lemma {:induction false} NewerWeighsMore(now: real, p1: int, p2: int, exp: real -> real)
    requires forall x: real, y: real :: x <= y ==> exp(x) <= exp(y)
    requires p1 <= p2
    ensures Weight(now, p1, exp) <= Weight(now, p2, exp)
  {
    var x := -0.693147 * (now - p1 as real) / HalfLife as real;
    var y := -0.693147 * (now - p2 as real) / HalfLife as real;
    assert x <= y;
  }

  /** The positions of the items with a truthy title, in input order. */
  function KeptIndices(items: seq<Item>): (idx: seq<nat>)
    ensures forall k :: 0 <= k < |idx| ==> idx[k] < |items| && items[idx[k]].title != ""
    ensures forall k, l :: 0 <= k < l < |idx| ==> idx[k] < idx[l]
    ensures forall j :: 0 <= j < |items| && items[j].title != "" ==> j in idx
  {
    if items == [] then []
    else
      var n := |items| - 1;
      KeptIndices(items[..n]) + (if items[n].title != "" then [n] else [])
  }

  /** `items.filter((item) => item.title)` */
  function Titled(items: seq<Item>): seq<Item>
  {
    if items == [] then []
    else
      var n := |items| - 1;
      Titled(items[..n]) + (if items[n].title != "" then [items[n]] else [])
  }

  lemma {:induction false} TitledAt(items: seq<Item>)
    ensures |Titled(items)| == |KeptIndices(items)|
    ensures forall k :: 0 <= k < |Titled(items)| ==> Titled(items)[k] == items[KeptIndices(items)[k]]
  {
    if items != [] {
      var n := |items| - 1;
      var front := items[..n];
      TitledAt(front);
      forall k | 0 <= k < |Titled(front)|
        ensures Titled(items)[k] == items[KeptIndices(items)[k]]
      {
        assert Titled(items)[k] == Titled(front)[k];
        assert KeptIndices(items)[k] == KeptIndices(front)[k];
        assert front[KeptIndices(front)[k]] == items[KeptIndices(front)[k]];
      }
    }
  }

  function ArticleOf(it: Item, now: real, exp: real -> real, parses: string -> bool): Article
  {
    Article(it.id, it.title, if it.origin != "" then it.origin else "Feed",
            ExtractUrl(it, parses), it.published, Weight(now, it.published, exp))
  }

  /** `_parseArticles`: one article per item with a truthy title, in order,
      copying its id, title and date. */
  function ParseArticles(items: seq<Item>, now: real, exp: real -> real, parses: string -> bool)
    : (r: seq<Article>)
    ensures |r| == |KeptIndices(items)|
    ensures forall k :: 0 <= k < |r| ==>
      var it := items[KeptIndices(items)[k]];
      && r[k].id == it.id && r[k].title == it.title && r[k].published == it.published
      && r[k].source == (if it.origin != "" then it.origin else "Feed")
      && r[k].url == ExtractUrl(it, parses)
      && r[k].weight == Weight(now, it.published, exp)
    ensures forall a :: a in r ==> UrlSafe(a.url) && a.title != ""
  {
    var kept := Titled(items);
    TitledAt(items);
    seq(|kept|, k requires 0 <= k < |kept| => ArticleOf(kept[k], now, exp, parses))
  }

  // ---------------------------------------------------------------- selection

  function Sum(ws: seq<real>): real
  {
    if ws == [] then 0.0 else Sum(ws[..|ws| - 1]) + ws[|ws| - 1]
  }

  predicate NonNegative(ws: seq<real>)
  {
    forall k :: 0 <= k < |ws| ==> ws[k] >= 0.0
  }

  function Weights(articles: seq<Article>): (ws: seq<real>)
    ensures |ws| == |articles|
    ensures forall k :: 0 <= k < |ws| ==> ws[k] == articles[k].weight
  {
    seq(|articles|, k requires 0 <= k < |articles| => articles[k].weight)
  }

  lemma {:induction false} SumStep(ws: seq<real>, i: nat)
    requires i < |ws|
    ensures Sum(ws[..i + 1]) == Sum(ws[..i]) + ws[i]
  {
    assert ws[..i + 1][..i] == ws[..i];
  }

  lemma {:induction false} PrefixSumMonotone(ws: seq<real>, i: nat, j: nat)
    requires NonNegative(ws) && i <= j <= |ws|
    ensures Sum(ws[..i]) <= Sum(ws[..j])
    decreases j - i
  {
    if i < j {
      SumStep(ws, i);
      PrefixSumMonotone(ws, i + 1, j);
    }
  }

  /** The running sum through position k. */
  function Through(ws: seq<real>, k: nat): real
    requires k < |ws|
  {
    Sum(ws[..k + 1])
  }

  /** The first position, at or after `from`, whose running sum reaches
      `pick`: where the loop's `pick -= weight` first drops to 0 or below. */
  function FirstReaching(ws: seq<real>, pick: real, from: nat): (r: Option<nat>)
    requires from <= |ws|
    ensures r.Some? ==> from <= r.value < |ws| && pick <= Through(ws, r.value)
    ensures forall k :: from <= k < |ws| && (r.None? || k < r.value) ==> Through(ws, k) < pick
    decreases |ws| - from
  {
    if from == |ws| then None
    else if pick <= Through(ws, from) then Some(from)
    else FirstReaching(ws, pick, from + 1)
  }

  /** A running sum that reaches `pick` at k means the search stops at k or
      earlier. */
  lemma {:induction false} FirstReachingFinds(ws: seq<real>, pick: real, from: nat, k: nat)
    requires from <= k < |ws| && pick <= Through(ws, k)
    ensures FirstReaching(ws, pick, from).Some? && FirstReaching(ws, pick, from).value <= k
    decreases k - from
  {
    if from < k && Through(ws, from) < pick {
      FirstReachingFinds(ws, pick, from + 1, k);
    }
  }

  /** `Math.random() * totalWeight`: a draw from [0, 1) scaled to a
      positive total lands in [0, total). */
  function Scaled(rand: real, total: real): (pick: real)
    ensures total > 0.0 && 0.0 <= rand < 1.0 ==> 0.0 <= pick < total
  {
    assert total > 0.0 && 0.0 <= rand < 1.0 ==> (1.0 - rand) * total > 0.0;
    rand * total
  }

  /** The position `_selectNext` shows for the draw `rand`: the first when
      the weights sum to 0 or the loop falls through, else where the running
      sum first reaches `rand * total`. */
  function Selection(ws: seq<real>, rand: real): (k: nat)
    requires |ws| > 0
    ensures k < |ws|
    ensures Sum(ws) == 0.0 ==> k == 0
  {
    var total := Sum(ws);
    if total == 0.0 then 0
    else
      match FirstReaching(ws, Scaled(rand, total), 0)
      case Some(k) => k
      case None => 0
  }

  /** With a positive total and a draw from [0, 1) the loop never falls
      through: the last running sum is the total. */
  lemma {:induction false} NoFallThrough(ws: seq<real>, rand: real)
    requires Sum(ws) > 0.0 && 0.0 <= rand < 1.0
    ensures |ws| > 0 && FirstReaching(ws, Scaled(rand, Sum(ws)), 0).Some?
  {
    ReachedByTotal(ws, Scaled(rand, Sum(ws)));
  }

  lemma {:induction false} ReachedByTotal(ws: seq<real>, pick: real)
    requires ws != [] && pick <= Sum(ws)
    ensures FirstReaching(ws, pick, 0).Some?
  {
    var last := |ws| - 1;
    assert ws[..last + 1] == ws;
    FirstReachingFinds(ws, pick, 0, last);
  }

  /** The roulette: with non-negative weights and a positive pick, the draw
      selects position k exactly when it falls in (sum before k, sum through
      k], an interval as wide as the weight of k. */
  lemma {:induction false} SelectionInterval(ws: seq<real>, rand: real, k: nat)
    requires NonNegative(ws) && Sum(ws) > 0.0 && 0.0 < rand < 1.0 && k < |ws|
    ensures Selection(ws, rand) == k <==>
            Sum(ws[..k]) < Scaled(rand, Sum(ws)) <= Sum(ws[..k + 1])
  {
    var pick := Scaled(rand, Sum(ws));
    assert 0.0 < pick;
    NoFallThrough(ws, rand);
    var k0 := FirstReaching(ws, pick, 0).value;
    assert Selection(ws, rand) == k0;
    assert pick <= Sum(ws[..k0 + 1]);
    if k0 > 0 {
      assert Through(ws, k0 - 1) < pick;
      assert ws[..k0 - 1 + 1] == ws[..k0];
    }
    assert Sum(ws[..k0]) < pick;
    if Sum(ws[..k]) < pick <= Sum(ws[..k + 1]) && k0 < k {
      PrefixSumMonotone(ws, k0 + 1, k);
    }
    if k0 > k {
      assert Through(ws, k) < pick;
    }
  }

  /** With non-negative weights and a positive pick, an article of weight 0
      is never shown. */
  lemma {:induction false} SelectedHasWeight(ws: seq<real>, rand: real)
    requires NonNegative(ws) && Sum(ws) > 0.0 && 0.0 < rand < 1.0
    ensures |ws| > 0 && ws[Selection(ws, rand)] > 0.0
  {
    NoFallThrough(ws, rand);
    var k := Selection(ws, rand);
    SelectionInterval(ws, rand, k);
    SumStep(ws, k);
  }

  // ---------------------------------------------------------------- service

  /** The error text a failed refresh records: the thrown message, or a
      fixed text when it is empty. */
  function ErrorText(message: string): (r: string)
    ensures r != ""
    ensures message != "" ==> r == message
  {
    if message != "" then message else "Failed to fetch feed"
  }

  class FeedService {
    var articles: seq<Article>
    var current: Option<Article>
    var status: Status
    var error: string
    var paused: bool

    /** Every link the service may hand to `xdg-open` is http(s) or empty. */
    predicate Valid()
      reads this
    {
      (forall a :: a in articles ==> UrlSafe(a.url))
      && (current.Some? ==> UrlSafe(current.value.url))
    }

    constructor ()
      ensures Valid()
      ensures articles == [] && current == None && status == Loading
      ensures error == "" && !paused
    {
      articles := [];
      current := None;
      status := Loading;
      error := "";
      paused := false;
    }

    /** `_selectNext` with `rand` for `Math.random()`. */
    method SelectNext(rand: real)
      requires Valid()
      modifies this
      ensures Valid()
      ensures articles == old(articles) && status == old(status)
      ensures error == old(error) && paused == old(paused)
      ensures current == if |articles| == 0 then old(current)
                         else Some(articles[Selection(Weights(articles), rand)])
    {
      if |articles| == 0 {
        return;
      }
      var ws := Weights(articles);
      var total := Sum(ws);
      if total == 0.0 {
        current := Some(articles[0]);
        return;
      }
      var arts := articles;
      var pick := rand * total;
      var i := 0;
      while i < |arts|
        invariant articles == arts && status == old(status)
        invariant error == old(error) && paused == old(paused)
        invariant 0 <= i <= |arts| == |ws|
        invariant pick == Scaled(rand, total) - Sum(ws[..i])
        invariant FirstReaching(ws, Scaled(rand, total), 0) == FirstReaching(ws, Scaled(rand, total), i)
      {
        SumStep(ws, i);
        pick := pick - arts[i].weight;
        if pick <= 0.0 {
          current := Some(arts[i]);
          return;
        }
        i := i + 1;
      }
      current := Some(articles[0]);
    }

    /** `refresh`: `token` and `apiUrl` are the environment values ("" when
        unset), `reply` the outcome of the request, `now` the clock in
        seconds. A success replaces the list wholesale; any failure keeps
        the list and the current article. */
    method Refresh(token: string, apiUrl: string, reply: Reply, now: real,
                   exp: real -> real, parses: string -> bool, rand: real)
      requires Valid()
      modifies this
      ensures Valid()
      ensures paused == old(paused)
      ensures token == "" ==>
        status == Error && error == "FRESHRSS_AUTH_TOKEN not set"
        && articles == old(articles) && current == old(current)
      ensures token != "" && apiUrl == "" ==>
        status == Error && error == "FRESHRSS_API_URL not set"
        && articles == old(articles) && current == old(current)
      ensures token != "" && apiUrl != "" && reply.Failed? ==>
        status == Error && error == ErrorText(reply.message)
        && articles == old(articles) && current == old(current)
      ensures token != "" && apiUrl != "" && reply.Fetched? ==>
        && status == Ready && error == ""
        && articles == ParseArticles(reply.items, now, exp, parses)
        && current == if old(current).None? && |articles| > 0
                      then Some(articles[Selection(Weights(articles), rand)])
                      else old(current)
    {
      status := Loading;
      if token == "" {
        status, error := Error, "FRESHRSS_AUTH_TOKEN not set";
        return;
      }
      if apiUrl == "" {
        status, error := Error, "FRESHRSS_API_URL not set";
        return;
      }
      match reply
      case Failed(message) =>
        status, error := Error, ErrorText(message);
      case Fetched(items) =>
        articles := ParseArticles(items, now, exp, parses);
        status, error := Ready, "";
        if current.None? && |articles| > 0 {
          SelectNext(rand);
        }
    }

    /** One firing of the 8-second cycle timer. */
    method CycleTick(rand: real)
      requires Valid()
      modifies this
      ensures Valid()
      ensures articles == old(articles) && status == old(status)
      ensures error == old(error) && paused == old(paused)
      ensures current == if !paused && |articles| > 0
                         then Some(articles[Selection(Weights(articles), rand)])
                         else old(current)
    {
      if !paused && |articles| > 0 {
        SelectNext(rand);
      }
    }

    method Pause()
      modifies this
      ensures paused
      ensures articles == old(articles) && current == old(current)
      ensures status == old(status) && error == old(error)
    {
      paused := true;
    }

    method Resume()
      modifies this
      ensures !paused
      ensures articles == old(articles) && current == old(current)
      ensures status == old(status) && error == old(error)
    {
      paused := false;
    }

    /** `openCurrent`: the URL handed to `xdg-open`, if any. Only a current
        article with a non-empty link is opened, and that link is http(s). */
    method OpenCurrent() returns (target: Option<string>)
      requires Valid()
      ensures target.Some? <==> current.Some? && current.value.url != ""
      ensures target.Some? ==> target.value == current.value.url && HttpScheme(target.value)
    {
      if current.Some? && current.value.url != "" {
        target := Some(current.value.url);
      } else {
        target := None;
      }
    }
  }
}
