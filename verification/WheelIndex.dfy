/** The nightly wheel index: an HTML page with one link per wheel (the project page of the
    Specification section of PEP 503) that every nightly run reads, extends and rewrites. */
module WheelIndex {
  import opened Base
  import opened Splitting

  datatype Wheel = Wheel(name: string, url: string)

  const DOCTYPE := "<!DOCTYPE html>"
  const ANCHOR := "<a href="
  const CLOSE := "</a>"

  // ----- one link -----

  function Link(w: Wheel): string {
    ANCHOR + "\"" + w.url + "\">" + w.name + CLOSE + "<br>"
  }

  /** The first `<` at or after i, or the end. */
  function NextLess(s: string, i: nat): (r: nat)
    requires i <= |s|
    ensures i <= r <= |s|
    decreases |s| - i
  {
    if i == |s| || s[i] == '<' then i else NextLess(s, i + 1)
  }

  /** The file name between a `>` at p and the next `<`, which must begin the closing tag. */
  function MatchAt(s: string, p: nat): Option<string>
    requires p < |s|
  {
    if s[p] != '>' then None else
      var q := NextLess(s, p + 1);
      var name := s[p + 1..q];
      if Occurs(s, CLOSE, q) && IsWheelName(name) then Some(name) else None
  }

  /** A non-empty stem followed by the extension. */
  predicate IsWheelName(name: string) {
    |name| > 4 && name[|name| - 4..] == ".whl"
  }

  /** The leftmost match at or after p. */
  function NameFrom(s: string, p: nat): Option<string>
    requires p <= |s|
    decreases |s| - p
  {
    if p == |s| then None
    else if MatchAt(s, p).Some? then MatchAt(s, p)
    else NameFrom(s, p + 1)
  }

  function NameOf(link: string): Option<string> {
    NameFrom(link, 0)
  }

  /** What a wheel on disk looks like: nothing in its name or URL reads as markup or a line end. */
  ghost predicate WheelOk(w: Wheel) {
    && IsWheelName(w.name)
    && '<' !in w.name && '\n' !in w.name
    && '>' !in w.url && '\n' !in w.url
  }

  lemma {:induction false} NextLessIs(s: string, i: nat, q: nat)
    requires i <= q < |s| && s[q] == '<' && forall k :: i <= k < q ==> s[k] != '<'
    ensures NextLess(s, i) == q
    decreases q - i
  {
    if i < q {
      NextLessIs(s, i + 1, q);
    }
  }

  lemma {:induction false} NameFromSkips(s: string, p: nat, q: nat)
    requires p <= q <= |s| && forall k :: p <= k < q ==> s[k] != '>'
    ensures NameFrom(s, p) == NameFrom(s, q)
    decreases q - p
  {
    if p < q {
      NameFromSkips(s, p + 1, q);
    }
  }

  /** A `>`, a wheel name without markup and the closing tag match as that name. */
  lemma MatchesName(head: string, name: string, tail: string)
    requires IsWheelName(name) && '<' !in name
    ensures MatchAt(head + ">" + name + (CLOSE + tail), |head|) == Some(name)
  {
    var s := head + ">" + name + (CLOSE + tail);
    var (p, q) := (|head| + 1, |head| + 1 + |name|);
    assert s[p..q] == name;
    assert s[q..q + 4] == CLOSE;
    forall k | p <= k < q
      ensures s[k] != '<'
    {
      assert s[k] == name[k - p];
    }
    NextLessIs(s, p, q);
  }

  lemma LinkIs(w: Wheel)
    ensures Link(w) == ANCHOR + "\"" + w.url + "\"" + ">" + w.name + (CLOSE + "<br>")
  {
  }

  lemma {:induction false} NextLessClean(s: string, i: nat)
    requires i <= |s|
    ensures '<' !in s[i..NextLess(s, i)]
    decreases |s| - i
  {
    if i < |s| && s[i] != '<' {
      NextLessClean(s, i + 1);
      assert s[i..NextLess(s, i)] == [s[i]] + s[i + 1..NextLess(s, i)];
    }
  }

  /** Whatever is found is a wheel name without markup. */
  lemma {:induction false} FoundNameClean(s: string, p: nat)
    requires p <= |s| && NameFrom(s, p).Some?
    ensures IsWheelName(NameFrom(s, p).value) && '<' !in NameFrom(s, p).value
    decreases |s| - p
  {
    if MatchAt(s, p).Some? {
      NextLessClean(s, p + 1);
    } else {
      FoundNameClean(s, p + 1);
    }
  }

  lemma LongerName(more: string, name: string)
    requires IsWheelName(name)
    ensures IsWheelName(more + name)
  {
    var s := more + name;
    assert s[|s| - 4..] == name[|name| - 4..];
  }

  /** What precedes the `>` that closes the opening tag of a link. */
  function Head(url: string): string {
    ANCHOR + "\"" + url + "\""
  }

  /** A `>` with no `<` after it: the match of the file name would begin there. */
  predicate OpensAt(head: string, p: nat) {
    p < |head| && head[p] == '>' && '<' !in head[p..]
  }

  ghost predicate Opens(head: string) {
    exists p: nat :: OpensAt(head, p)
  }

  lemma {:induction false} NextLessSame(head: string, tail: string, i: nat)
    requires i <= |head| && '<' in head[i..]
    ensures NextLess(head + tail, i) == NextLess(head, i) < |head|
    decreases |head| - i
  {
    if head[i] != '<' {
      assert head[i..] == [head[i]] + head[i + 1..];
      NextLessSame(head, tail, i + 1);
    }
  }

  /** The closing tag holds no quote: it does not reach over the end of a head that ends in one. */
  lemma CloseStopsAtQuote(head: string, tail: string, q: nat)
    requires q < |head| && head[|head| - 1] == '"'
    ensures Occurs(head + tail, CLOSE, q) == Occurs(head, CLOSE, q)
  {
    if q + |CLOSE| <= |head| {
      OccursInPrefix(head, tail, CLOSE, q);
    } else {
      var k := |head| - 1 - q;
      assert CLOSE[k] != '"';
      assert q + |CLOSE| <= |head + tail| ==> (head + tail)[q..q + |CLOSE|][k] == '"';
    }
  }

  /** Where a `<` follows inside the head, a match depends on the head alone. */
  lemma MatchSame(head: string, tail: string, p: nat)
    requires p < |head| && head[|head| - 1] == '"' && '<' in head[p..]
    ensures MatchAt(head + tail, p) == MatchAt(head, p)
  {
    if head[p] == '>' {
      assert head[p..] == [head[p]] + head[p + 1..];
      NextLessSame(head, tail, p + 1);
      var q := NextLess(head, p + 1);
      assert (head + tail)[p + 1..q] == head[p + 1..q];
      CloseStopsAtQuote(head, tail, q);
    }
  }

  lemma MatchHasLess(head: string, p: nat)
    requires p < |head| && MatchAt(head, p).Some?
    ensures '<' in head[p..]
  {
    var q := NextLess(head, p + 1);
    assert head[q..q + 4][0] == '<';
    assert head[p..][q - p] == '<';
  }

  lemma {:induction false} FoundHasLess(head: string, p: nat)
    requires p <= |head| && NameFrom(head, p).Some?
    ensures '<' in head[p..]
    decreases |head| - p
  {
    if MatchAt(head, p).Some? {
      MatchHasLess(head, p);
    } else {
      FoundHasLess(head, p + 1);
      assert head[p..] == [head[p]] + head[p + 1..];
    }
  }

  /** A name found in the head is the one found in the whole link. */
  lemma {:induction false} FoundInHead(head: string, tail: string, p: nat)
    requires p <= |head| && head != "" && head[|head| - 1] == '"' && NameFrom(head, p).Some?
    ensures NameFrom(head + tail, p) == NameFrom(head, p)
    decreases |head| - p
  {
    FoundHasLess(head, p);
    MatchSame(head, tail, p);
    if MatchAt(head, p).None? {
      FoundInHead(head, tail, p + 1);
    }
  }

  /** Without a name in the head, the scan passes everything before k that does not open a match. */
  lemma {:induction false} ScanPasses(head: string, tail: string, p: nat, k: nat)
    requires p <= k <= |head| && head != "" && head[|head| - 1] == '"' && NameFrom(head, p).None?
    requires forall i: nat :: p <= i < k ==> !OpensAt(head, i)
    ensures NameFrom(head + tail, p) == NameFrom(head + tail, k)
    decreases k - p
  {
    if p < k {
      assert !OpensAt(head, p);
      if '<' in head[p..] {
        MatchSame(head, tail, p);
      }
      ScanPasses(head, tail, p + 1, k);
    }
  }

  lemma {:induction false} FirstOpening(head: string, p: nat) returns (k: nat)
    requires OpensAt(head, p)
    ensures OpensAt(head, k) && forall i: nat :: i < k ==> !OpensAt(head, i)
    decreases p
  {
    if i: nat :| i < p && OpensAt(head, i) {
      k := FirstOpening(head, i);
    } else {
      k := p;
    }
  }

  lemma OpeningMatches(head: string, name: string, k: nat)
    requires OpensAt(head, k) && IsWheelName(name) && '<' !in name
    ensures NameFrom(head + (">" + name + (CLOSE + "<br>")), k) == Some(head[k + 1..] + ">" + name)
  {
    var more := head[k + 1..] + ">";
    assert head[k..] == [head[k]] + head[k + 1..];
    assert head + (">" + name + (CLOSE + "<br>")) == head[..k] + ">" + (more + name) + (CLOSE + "<br>");
    LongerName(more, name);
    MatchesName(head[..k], more + name, "<br>");
  }

  lemma EarlyName(head: string, name: string, p: nat)
    requires IsWheelName(name) && '<' !in name && NameOf(head).None? && OpensAt(head, p)
    requires head[|head| - 1] == '"'
    ensures NameOf(head + (">" + name + (CLOSE + "<br>"))) != Some(name)
  {
    var k := FirstOpening(head, p);
    ScanPasses(head, ">" + name + (CLOSE + "<br>"), 0, k);
    OpeningMatches(head, name, k);
    assert |head[k + 1..] + ">" + name| > |name|;
  }

  /** A match that opens inside the URL runs on to the end of the file name: the name found is
      longer. */
  lemma EarlyMatch(w: Wheel, p: nat)
    requires IsWheelName(w.name) && '<' !in w.name && NameOf(Head(w.url)).None? && OpensAt(Head(w.url), p)
    ensures NameOf(Link(w)) != Some(w.name)
  {
    LinkIs(w);
    assert Link(w) == Head(w.url) + (">" + w.name + (CLOSE + "<br>"));
    EarlyName(Head(w.url), w.name, p);
  }

  lemma LateMatch(w: Wheel)
    requires IsWheelName(w.name) && '<' !in w.name && NameOf(Head(w.url)).None? && !Opens(Head(w.url))
    ensures NameOf(Link(w)) == Some(w.name)
  {
    var head, tail := Head(w.url), ">" + w.name + (CLOSE + "<br>");
    LinkIs(w);
    assert Link(w) == head + tail;
    ScanPasses(head, tail, 0, |head|);
    assert head + tail == head + ">" + w.name + (CLOSE + "<br>");
    MatchesName(head, w.name, "<br>");
  }

  /** For every name and URL: the file name is read back from the link written for it exactly when
      it is a wheel name without `<`, and the URL neither holds another name nor opens a match
      that runs into the file name. */
  lemma LinkName(w: Wheel)
    ensures NameOf(Link(w)) == Some(w.name) <==>
              && IsWheelName(w.name) && '<' !in w.name
              && if NameOf(Head(w.url)).Some? then NameOf(Head(w.url)) == Some(w.name) else !Opens(Head(w.url))
  {
    if NameOf(Link(w)).Some? {
      FoundNameClean(Link(w), 0);
    }
    if IsWheelName(w.name) && '<' !in w.name {
      LinkIs(w);
      if NameOf(Head(w.url)).Some? {
        FoundInHead(Head(w.url), ">" + w.name + (CLOSE + "<br>"), 0);
        assert Link(w) == Head(w.url) + (">" + w.name + (CLOSE + "<br>"));
      } else if Opens(Head(w.url)) {
        var p: nat :| OpensAt(Head(w.url), p);
        EarlyMatch(w, p);
      } else {
        LateMatch(w);
      }
    }
  }

  /** In particular it is when the URL holds no `>`. */
  lemma CleanLinkName(w: Wheel)
    requires IsWheelName(w.name) && '<' !in w.name && '>' !in w.url
    ensures NameOf(Link(w)) == Some(w.name)
  {
    var head := Head(w.url);
    assert '>' !in ANCHOR && '>' !in head;
    forall k | 0 <= k < |head|
      ensures head[k] != '>'
    {
      assert head[k] in head;
    }
    NameFromSkips(head, 0, |head|);
    LinkName(w);
  }

  /** The first quote at or after i, or the end. */
  function NextQuote(s: string, i: nat): (r: nat)
    requires i <= |s|
    ensures i <= r <= |s|
    ensures forall k :: i <= k < r ==> s[k] != '"'
    ensures r < |s| ==> s[r] == '"'
    decreases |s| - i
  {
    if i == |s| || s[i] == '"' then i else NextQuote(s, i + 1)
  }

  /** The target of a link: what its href attribute says, between the quotes. */
  function Target(link: string): string {
    var start := |ANCHOR| + 1;
    if start <= |link| && link[..start] == ANCHOR + "\"" then link[start..NextQuote(link, start)] else ""
  }

  lemma QuotedParts(before: string, url: string, after: string)
    ensures var s, start := before + url + ("\"" + after), |before|;
            && start + |url| < |s| && s[..start] == before && s[start..start + |url|] == url
            && s[start + |url|] == '"'
            && forall k :: 0 <= k < |url| ==> s[start + k] == url[k]
  {
  }

  /** The first quote after the opening one closes the URL exactly when the URL holds none. */
  lemma QuoteAfter(before: string, url: string, after: string)
    ensures var s, start := before + url + ("\"" + after), |before|;
            s[start..NextQuote(s, start)] == url <==> '"' !in url
  {
    var s, start := before + url + ("\"" + after), |before|;
    QuotedParts(before, url, after);
    var q := NextQuote(s, start);
    if '"' !in url {
      assert q == start + |url|;
    } else {
      var k :| 0 <= k < |url| && url[k] == '"';
      assert s[start + k] == '"';
      assert q <= start + k;
    }
  }

  /** The target of the link written for a wheel is its URL, exactly when that holds no quote. */
  lemma LinkTarget(w: Wheel)
    ensures Target(Link(w)) == w.url <==> '"' !in w.url
  {
    var before, after := ANCHOR + "\"", ">" + w.name + CLOSE + "<br>";
    assert Link(w) == before + w.url + ("\"" + after);
    QuotedParts(before, w.url, after);
    QuoteAfter(before, w.url, after);
  }

  // ----- the page -----

  function Title(cuda: string): string {
    "<h1>SGLang Nightly Wheels (" + cuda + ")</h1>"
  }

  function JoinLines(links: seq<string>): string {
    if links == [] then "" else Join(links, "\n")
  }

  function Render(cuda: string, links: seq<string>): string {
    DOCTYPE + "\n" + (Title(cuda) + "\n" + (JoinLines(links) + "\n"))
  }

  /** A line of the page that is a link. */
  predicate IsLink(line: string) {
    ANCHOR <= line
  }

  function KeepLinks(lines: seq<string>): seq<string> {
    if lines == [] then []
    else KeepLinks(lines[..|lines| - 1]) + if IsLink(lines[|lines| - 1]) then [lines[|lines| - 1]] else []
  }

  /** The links of a page; none when there is no page yet. */
  function ReadLinks(page: Option<string>): seq<string> {
    if page.None? then [] else KeepLinks(Split(page.value, "\n"))
  }

  ghost predicate LinesOk(links: seq<string>) {
    forall i :: 0 <= i < |links| ==> IsLink(links[i]) && '\n' !in links[i]
  }

  lemma LineFree(line: string)
    requires '\n' !in line
    ensures !Contains(line, "\n")
  {
    forall i: nat
      ensures !Occurs(line, "\n", i)
    {
      if i + 1 <= |line| {
        assert line[i..i + 1][0] == line[i];
      }
    }
  }

  lemma {:induction false} FreeLine(line: string)
    requires !Contains(line, "\n")
    ensures '\n' !in line
  {
    forall i | 0 <= i < |line|
      ensures line[i] != '\n'
    {
      assert !Occurs(line, "\n", i);
      assert line[i..i + 1] == [line[i]];
    }
  }

  lemma {:induction false} KeepLinksConcat(a: seq<string>, b: seq<string>)
    ensures KeepLinks(a + b) == KeepLinks(a) + KeepLinks(b)
  {
    if b == [] {
      assert a + b == a;
    } else {
      KeepLinksConcat(a, b[..|b| - 1]);
      assert (a + b)[..|a + b| - 1] == a + b[..|b| - 1];
    }
  }

  lemma {:induction false} KeepAll(links: seq<string>)
    requires forall i :: 0 <= i < |links| ==> IsLink(links[i])
    ensures KeepLinks(links) == links
  {
    if links != [] {
      KeepAll(links[..|links| - 1]);
      assert links == links[..|links| - 1] + [links[|links| - 1]];
    }
  }

  lemma KeepNone(line: string)
    requires !IsLink(line)
    ensures KeepLinks([line]) == []
  {
    assert [line][..0] == [];
  }

  /** The lines of a page. */
  function Lines(cuda: string, links: seq<string>): seq<string> {
    [DOCTYPE] + ([Title(cuda)] + ((if links == [] then [""] else links) + [""]))
  }

  lemma {:induction false} JoinSnoc(lines: seq<string>)
    requires lines != []
    ensures Join(lines + [""], "\n") == Join(lines, "\n") + "\n"
  {
    if |lines| == 1 {
      assert (lines + [""])[1..] == [""];
      assert lines[0] + "\n" + "" == lines[0] + "\n";
    } else {
      JoinSnoc(lines[1..]);
      assert (lines + [""])[1..] == lines[1..] + [""];
    }
  }

  lemma JoinCons(line: string, lines: seq<string>)
    requires lines != []
    ensures Join([line] + lines, "\n") == line + "\n" + Join(lines, "\n")
  {
    assert ([line] + lines)[1..] == lines;
  }

  lemma RenderIsLines(cuda: string, links: seq<string>)
    ensures Render(cuda, links) == Join(Lines(cuda, links), "\n")
  {
    var body := if links == [] then [""] else links;
    JoinSnoc(body);
    JoinCons(Title(cuda), body + [""]);
    JoinCons(DOCTYPE, [Title(cuda)] + (body + [""]));
  }

  lemma NotLinks(cuda: string)
    ensures !IsLink(DOCTYPE) && !IsLink(Title(cuda)) && !IsLink("")
  {
    assert DOCTYPE[1] != ANCHOR[1];
    assert Title(cuda)[1] == 'h' != ANCHOR[1];
  }

  lemma NewlineBorderFree()
    ensures BorderFree("\n")
  {
  }

  lemma TitleIsLine(cuda: string)
    requires '\n' !in cuda
    ensures '\n' !in DOCTYPE && '\n' !in Title(cuda)
  {
  }

  lemma LinesFree(cuda: string, links: seq<string>)
    requires LinesOk(links) && '\n' !in cuda
    ensures forall i :: 0 <= i < |Lines(cuda, links)| ==> !Contains(Lines(cuda, links)[i], "\n")
  {
    var lines := Lines(cuda, links);
    TitleIsLine(cuda);
    forall i | 0 <= i < |lines|
      ensures !Contains(lines[i], "\n")
    {
      LineFree(lines[i]);
    }
  }

  lemma SplitPage(cuda: string, links: seq<string>)
    requires LinesOk(links) && '\n' !in cuda
    ensures Split(Render(cuda, links), "\n") == Lines(cuda, links)
  {
    RenderIsLines(cuda, links);
    LinesFree(cuda, links);
    NewlineBorderFree();
    SplitJoin(Lines(cuda, links), "\n");
  }

  /** A page parses back to the links written on it. */
  lemma PageRoundTrip(cuda: string, links: seq<string>)
    requires LinesOk(links) && '\n' !in cuda
    ensures ReadLinks(Some(Render(cuda, links))) == links
  {
    var body := if links == [] then [""] else links;
    SplitPage(cuda, links);
    NotLinks(cuda);
    KeepNone(DOCTYPE);
    KeepNone(Title(cuda));
    KeepNone("");
    KeepLinksConcat([DOCTYPE], [Title(cuda)] + (body + [""]));
    KeepLinksConcat([Title(cuda)], body + [""]);
    KeepLinksConcat(body, [""]);
    KeepAll(links);
  }

  lemma {:induction false} KeepLinksFrom(lines: seq<string>)
    ensures forall i :: 0 <= i < |KeepLinks(lines)| ==> IsLink(KeepLinks(lines)[i]) && KeepLinks(lines)[i] in lines
  {
    if lines != [] {
      KeepLinksFrom(lines[..|lines| - 1]);
    }
  }

  /** Whatever page was there before, what is read from it are link lines. */
  lemma ReadLinksOk(page: Option<string>)
    ensures LinesOk(ReadLinks(page))
  {
    if page.Some? {
      var lines := Split(page.value, "\n");
      KeepLinksFrom(lines);
      forall i | 0 <= i < |ReadLinks(page)|
        ensures '\n' !in ReadLinks(page)[i]
      {
        var k :| 0 <= k < |lines| && lines[k] == ReadLinks(page)[i];
        SplitPieces(page.value, "\n", k);
        FreeLine(lines[k]);
      }
    }
  }

  // ----- removing duplicates -----

  /** Keep the first link of every name that is not in `seen`; drop links without a name. */
  function Dedupe(links: seq<string>, seen: set<string>): seq<string> {
    if links == [] then [] else
      var name := NameOf(links[0]);
      if name.None? || name.value in seen then Dedupe(links[1..], seen)
      else [links[0]] + Dedupe(links[1..], seen + {name.value})
  }

  function Names(links: seq<string>): set<string> {
    set i | 0 <= i < |links| && NameOf(links[i]).Some? :: NameOf(links[i]).value
  }

  lemma NamesCons(links: seq<string>)
    requires links != []
    ensures Names(links) == Names(links[1..]) + if NameOf(links[0]).Some? then {NameOf(links[0]).value} else {}
  {
    var rest := links[1..];
    forall n | n in Names(links)
      ensures n in Names(rest) || NameOf(links[0]) == Some(n)
    {
      var i :| 0 <= i < |links| && NameOf(links[i]) == Some(n);
      if i > 0 {
        assert rest[i - 1] == links[i];
      }
    }
    forall n | n in Names(rest)
      ensures n in Names(links)
    {
      var i :| 0 <= i < |rest| && NameOf(rest[i]) == Some(n);
      assert links[i + 1] == rest[i];
    }
  }

  lemma {:induction false} DedupeConcat(a: seq<string>, b: seq<string>, seen: set<string>)
    ensures Dedupe(a + b, seen) == Dedupe(a, seen) + Dedupe(b, seen + Names(a))
  {
    if a == [] {
      assert a + b == b;
      assert seen + Names(a) == seen;
    } else {
      assert (a + b)[1..] == a[1..] + b;
      NamesCons(a);
      var name := NameOf(a[0]);
      var seen' := if name.Some? then seen + {name.value} else seen;
      assert seen' + Names(a[1..]) == seen + Names(a);
      if name.None? || name.value in seen {
        assert seen' == seen;
      }
      DedupeConcat(a[1..], b, seen');
    }
  }

  /** Having removed duplicates before makes no difference later. */
  lemma {:induction false} DedupeTwice(b: seq<string>, s: set<string>, t: set<string>)
    requires s <= t
    ensures Dedupe(Dedupe(b, s), t) == Dedupe(b, t)
  {
    if b != [] {
      var name := NameOf(b[0]);
      if name.None? || name.value in s {
        DedupeTwice(b[1..], s, t);
      } else {
        var s' := s + {name.value};
        var d := Dedupe(b, s);
        assert d[0] == b[0] && d[1..] == Dedupe(b[1..], s');
        if name.value in t {
          DedupeTwice(b[1..], s', t);
        } else {
          DedupeTwice(b[1..], s', t + {name.value});
        }
      }
    }
  }

  lemma DedupeAfter(a: seq<string>, b: seq<string>)
    ensures Dedupe(a + Dedupe(b, {}), {}) == Dedupe(a + b, {})
  {
    DedupeConcat(a, Dedupe(b, {}), {});
    DedupeConcat(a, b, {});
    DedupeTwice(b, {}, {} + Names(a));
  }

  /** The first link of a name. */
  function Newest(links: seq<string>, name: string): Option<string> {
    if links == [] then None
    else if NameOf(links[0]) == Some(name) then Some(links[0])
    else Newest(links[1..], name)
  }

  /** Every name keeps its first link, and loses all others. */
  lemma {:induction false} DedupeKeepsNewest(links: seq<string>, seen: set<string>, name: string)
    ensures Newest(Dedupe(links, seen), name) == if name in seen then None else Newest(links, name)
  {
    if links != [] {
      var n := NameOf(links[0]);
      if n.None? || n.value in seen {
        DedupeKeepsNewest(links[1..], seen, name);
      } else {
        DedupeKeepsNewest(links[1..], seen + {n.value}, name);
        assert Dedupe(links, seen)[1..] == Dedupe(links[1..], seen + {n.value});
      }
    }
  }

  lemma {:induction false} DedupeFrom(links: seq<string>, seen: set<string>)
    ensures forall i :: 0 <= i < |Dedupe(links, seen)| ==>
      && Dedupe(links, seen)[i] in links
      && NameOf(Dedupe(links, seen)[i]).Some?
      && NameOf(Dedupe(links, seen)[i]).value !in seen
  {
    if links != [] {
      var n := NameOf(links[0]);
      if n.None? || n.value in seen {
        DedupeFrom(links[1..], seen);
      } else {
        DedupeFrom(links[1..], seen + {n.value});
      }
    }
  }

  ghost predicate DistinctNames(links: seq<string>) {
    forall i, j :: 0 <= i < j < |links| ==> NameOf(links[i]) != NameOf(links[j])
  }

  lemma {:induction false} DedupeDistinct(links: seq<string>, seen: set<string>)
    ensures DistinctNames(Dedupe(links, seen))
  {
    if links != [] {
      var n := NameOf(links[0]);
      if n.None? || n.value in seen {
        DedupeDistinct(links[1..], seen);
      } else {
        var rest := Dedupe(links[1..], seen + {n.value});
        DedupeDistinct(links[1..], seen + {n.value});
        DedupeFrom(links[1..], seen + {n.value});
        var d := Dedupe(links, seen);
        forall i, j | 0 <= i < j < |d|
          ensures NameOf(d[i]) != NameOf(d[j])
        {
          assert d[j] == rest[j - 1];
          if i > 0 {
            assert d[i] == rest[i - 1];
          }
        }
      }
    }
  }

  // ----- one run -----

  function Links(wheels: seq<Wheel>): seq<string> {
    seq(|wheels|, i requires 0 <= i < |wheels| => Link(wheels[i]))
  }

  /** The page a run writes; a run without wheels fails and writes nothing. */
  function Update(cuda: string, page: Option<string>, wheels: seq<Wheel>): Outcome<string> {
    if wheels == [] then Raised("RuntimeError")
    else Ok(Render(cuda, Dedupe(Links(wheels) + ReadLinks(page), {})))
  }

  method ReadExisting(page: Option<string>) returns (links: seq<string>)
    ensures links == ReadLinks(page)
  {
    links := [];
    if page.Some? {
      var lines := Split(page.value, "\n");
      for i := 0 to |lines|
        invariant links == KeepLinks(lines[..i])
      {
        assert lines[..i + 1][..i] == lines[..i];
        if IsLink(lines[i]) {
          links := links + [lines[i]];
        }
      }
      assert lines[..|lines|] == lines;
    }
  }

  method RemoveDuplicates(links: seq<string>) returns (unique: seq<string>)
    ensures unique == Dedupe(links, {})
  {
    var seen: set<string> := {};
    unique := [];
    for i := 0 to |links|
      invariant unique + Dedupe(links[i..], seen) == Dedupe(links, {})
    {
      var name := NameOf(links[i]);
      assert links[i..][1..] == links[i + 1..];
      if name.Some? {
        if name.value !in seen {
          assert unique + ([links[i]] + Dedupe(links[i + 1..], seen + {name.value}))
              == unique + [links[i]] + Dedupe(links[i + 1..], seen + {name.value});
          seen := seen + {name.value};
          unique := unique + [links[i]];
        }
      }
    }
  }

  method UpdateIndex(cuda: string, page: Option<string>, wheels: seq<Wheel>) returns (r: Outcome<string>)
    ensures r == Update(cuda, page, wheels)
  {
    var existing := ReadExisting(page);
    var newLinks := [];
    for i := 0 to |wheels|
      invariant newLinks == Links(wheels)[..i]
    {
      newLinks := newLinks + [Link(wheels[i])];
    }
    assert newLinks == Links(wheels);
    if newLinks == [] {
      return Raised("RuntimeError");
    }
    var unique := RemoveDuplicates(newLinks + existing);
    return Ok(Render(cuda, unique));
  }

  ghost predicate RunOk(wheels: seq<Wheel>) {
    forall i :: 0 <= i < |wheels| ==> WheelOk(wheels[i])
  }

  lemma LinkIsLine(w: Wheel)
    requires WheelOk(w)
    ensures IsLink(Link(w)) && '\n' !in Link(w)
  {
    assert Link(w)[..|ANCHOR|] == ANCHOR;
  }

  /** After a run, the page lists exactly the merged links without duplicates. */
  lemma UpdateReads(cuda: string, page: Option<string>, wheels: seq<Wheel>)
    requires RunOk(wheels) && wheels != [] && '\n' !in cuda
    ensures ReadLinks(Some(Update(cuda, page, wheels).value)) == Dedupe(Links(wheels) + ReadLinks(page), {})
  {
    var all := Links(wheels) + ReadLinks(page);
    ReadLinksOk(page);
    forall i | 0 <= i < |all|
      ensures IsLink(all[i]) && '\n' !in all[i]
    {
      if i < |wheels| {
        LinkIsLine(wheels[i]);
      }
    }
    DedupeFrom(all, {});
    PageRoundTrip(cuda, Dedupe(all, {}));
  }

  lemma MergeAgain(l: seq<string>, e: seq<string>)
    ensures Dedupe(l + Dedupe(l + e, {}), {}) == Dedupe(l + e, {})
  {
    var seen := {} + Names(l);
    DedupeAfter(l, l + e);
    DedupeConcat(l, l + e, {});
    DedupeConcat(l, e, {});
    DedupeConcat(l, e, seen);
    DedupeSeen(l, seen);
    assert seen + Names(l) == seen;
  }

  /** Running the same update again changes nothing. */
  lemma RerunChangesNothing(cuda: string, page: Option<string>, wheels: seq<Wheel>)
    requires RunOk(wheels) && wheels != [] && '\n' !in cuda
    ensures Update(cuda, Some(Update(cuda, page, wheels).value), wheels) == Update(cuda, page, wheels)
  {
    UpdateReads(cuda, page, wheels);
    MergeAgain(Links(wheels), ReadLinks(page));
  }

  lemma {:induction false} DedupeSeen(links: seq<string>, seen: set<string>)
    requires Names(links) <= seen
    ensures Dedupe(links, seen) == []
  {
    if links != [] {
      NamesCons(links);
      DedupeSeen(links[1..], seen);
    }
  }

  // ----- all runs -----

  /** All links ever written, newest run first. */
  function History(runs: seq<seq<Wheel>>): seq<string> {
    if runs == [] then [] else Links(runs[|runs| - 1]) + History(runs[..|runs| - 1])
  }

  /** A failing run leaves the page as it was. */
  function AfterRun(cuda: string, page: Option<string>, wheels: seq<Wheel>): Option<string> {
    match Update(cuda, page, wheels)
    case Ok(text) => Some(text)
    case Raised(_) => page
  }

  function AfterRuns(cuda: string, page: Option<string>, runs: seq<seq<Wheel>>): Option<string> {
    if runs == [] then page
    else AfterRun(cuda, AfterRuns(cuda, page, runs[..|runs| - 1]), runs[|runs| - 1])
  }

  lemma LastRunMerges(cuda: string, page: Option<string>, wheels: seq<Wheel>, all: seq<string>)
    requires RunOk(wheels) && wheels != [] && '\n' !in cuda
    requires ReadLinks(page) == all || ReadLinks(page) == Dedupe(all, {})
    ensures ReadLinks(AfterRun(cuda, page, wheels)) == Dedupe(Links(wheels) + all, {})
  {
    UpdateReads(cuda, page, wheels);
    DedupeAfter(Links(wheels), all);
  }

  lemma HistoryStep(runs: seq<seq<Wheel>>, rest: seq<string>)
    requires runs != []
    ensures Links(runs[|runs| - 1]) + (History(runs[..|runs| - 1]) + rest) == History(runs) + rest
  {
  }

  /** Some run had wheels. */
  ghost predicate Published(runs: seq<seq<Wheel>>) {
    exists k :: 0 <= k < |runs| && runs[k] != []
  }

  lemma PublishedStep(runs: seq<seq<Wheel>>)
    requires runs != []
    ensures Published(runs) <==> Published(runs[..|runs| - 1]) || runs[|runs| - 1] != []
  {
    var n := |runs| - 1;
    if Published(runs[..n]) {
      var k :| 0 <= k < n && runs[..n][k] != [];
      assert runs[k] != [];
    }
    if Published(runs) {
      var k :| 0 <= k < |runs| && runs[k] != [];
      assert k < n ==> runs[..n][k] != [];
    }
  }

  /** Runs without wheels all fail: they write nothing and add nothing. */
  lemma {:induction false} UnpublishedRuns(cuda: string, page: Option<string>, runs: seq<seq<Wheel>>)
    requires !Published(runs)
    ensures AfterRuns(cuda, page, runs) == page && History(runs) == []
  {
    if runs != [] {
      var n := |runs| - 1;
      assert runs[n] == [];
      PublishedStep(runs);
      UnpublishedRuns(cuda, page, runs[..n]);
    }
  }

  /** After any runs, failing ones included, the page is what one merge of everything ever
      written would give, once there was something to write. */
  lemma {:induction false} RunsMerge(cuda: string, page: Option<string>, runs: seq<seq<Wheel>>)
    requires '\n' !in cuda && forall k :: 0 <= k < |runs| ==> RunOk(runs[k])
    ensures if Published(runs)
            then ReadLinks(AfterRuns(cuda, page, runs)) == Dedupe(History(runs) + ReadLinks(page), {})
            else AfterRuns(cuda, page, runs) == page
  {
    if !Published(runs) {
      UnpublishedRuns(cuda, page, runs);
    } else {
      var before, last := runs[..|runs| - 1], runs[|runs| - 1];
      RunsMerge(cuda, page, before);
      MergeLast(cuda, page, runs);
    }
  }

  lemma MergeLast(cuda: string, page: Option<string>, runs: seq<seq<Wheel>>)
    requires '\n' !in cuda && runs != [] && Published(runs) && RunOk(runs[|runs| - 1])
    requires var before := runs[..|runs| - 1];
             if Published(before)
             then ReadLinks(AfterRuns(cuda, page, before)) == Dedupe(History(before) + ReadLinks(page), {})
             else AfterRuns(cuda, page, before) == page
    ensures ReadLinks(AfterRuns(cuda, page, runs)) == Dedupe(History(runs) + ReadLinks(page), {})
  {
    var before, last := runs[..|runs| - 1], runs[|runs| - 1];
    var all := History(before) + ReadLinks(page);
    PublishedStep(runs);
    HistoryStep(runs, ReadLinks(page));
    if !Published(before) {
      UnpublishedRuns(cuda, page, before);
      assert all == ReadLinks(page);
    }
    if last != [] {
      LastRunMerges(cuda, AfterRuns(cuda, page, before), last, all);
    } else {
      assert Links(last) + all == all;
    }
  }

  lemma {:induction false} NewestConcat(a: seq<string>, b: seq<string>, name: string)
    ensures Newest(a + b, name) == if Newest(a, name).Some? then Newest(a, name) else Newest(b, name)
  {
    if a == [] {
      assert a + b == b;
    } else {
      assert (a + b)[1..] == a[1..] + b;
      NewestConcat(a[1..], b, name);
    }
  }

  lemma {:induction false} NewestLink(wheels: seq<Wheel>, name: string, i: nat)
    requires forall k :: 0 <= k < |wheels| ==> WheelOk(wheels[k])
    requires i < |wheels| && wheels[i].name == name && forall k :: 0 <= k < i ==> wheels[k].name != name
    ensures Newest(Links(wheels), name) == Some(Link(wheels[i]))
  {
    CleanLinkName(wheels[0]);
    if i > 0 {
      assert Links(wheels)[1..] == Links(wheels[1..]);
      NewestLink(wheels[1..], name, i - 1);
    }
  }

  lemma {:induction false} NoNewest(wheels: seq<Wheel>, name: string)
    requires forall k :: 0 <= k < |wheels| ==> WheelOk(wheels[k]) && wheels[k].name != name
    ensures Newest(Links(wheels), name) == None
  {
    if wheels != [] {
      CleanLinkName(wheels[0]);
      assert Links(wheels)[1..] == Links(wheels[1..]);
      NoNewest(wheels[1..], name);
    }
  }

  /** The newest link of a wheel in the history is that of the last run that had it. */
  lemma {:induction false} HistoryNewest(runs: seq<seq<Wheel>>, r: nat, i: nat)
    requires forall k :: 0 <= k < |runs| ==> RunOk(runs[k])
    requires r < |runs| && i < |runs[r]| && forall k :: 0 <= k < i ==> runs[r][k].name != runs[r][i].name
    requires forall k, j :: r < k < |runs| && 0 <= j < |runs[k]| ==> runs[k][j].name != runs[r][i].name
    ensures Newest(History(runs), runs[r][i].name) == Some(Link(runs[r][i]))
  {
    var n, name := |runs| - 1, runs[r][i].name;
    NewestConcat(Links(runs[n]), History(runs[..n]), name);
    if r == n {
      NewestLink(runs[n], name, i);
    } else {
      NoNewest(runs[n], name);
      HistoryNewest(runs[..n], r, i);
    }
  }

  /** Any wheel ever published is on the page exactly once, with the URL of its latest run. */
  lemma EveryWheelOnce(cuda: string, page: Option<string>, runs: seq<seq<Wheel>>, r: nat, i: nat)
    requires '\n' !in cuda && forall k :: 0 <= k < |runs| ==> RunOk(runs[k])
    requires r < |runs| && i < |runs[r]| && forall k :: 0 <= k < i ==> runs[r][k].name != runs[r][i].name
    requires forall k, j :: r < k < |runs| && 0 <= j < |runs[k]| ==> runs[k][j].name != runs[r][i].name
    ensures var links := ReadLinks(AfterRuns(cuda, page, runs));
            DistinctNames(links) && Newest(links, runs[r][i].name) == Some(Link(runs[r][i]))
  {
    var all := History(runs) + ReadLinks(page);
    assert runs[r] != [];
    RunsMerge(cuda, page, runs);
    DedupeDistinct(all, {});
    DedupeKeepsNewest(all, {}, runs[r][i].name);
    NewestConcat(History(runs), ReadLinks(page), runs[r][i].name);
    HistoryNewest(runs, r, i);
  }

  /** A link that was on the page before and was not published again stays as it was. */
  lemma OldLinksStay(cuda: string, page: Option<string>, wheels: seq<Wheel>, name: string)
    requires RunOk(wheels) && wheels != [] && '\n' !in cuda && forall k :: 0 <= k < |wheels| ==> wheels[k].name != name
    ensures Newest(ReadLinks(Some(Update(cuda, page, wheels).value)), name) == Newest(ReadLinks(page), name)
  {
    UpdateReads(cuda, page, wheels);
    DedupeKeepsNewest(Links(wheels) + ReadLinks(page), {}, name);
    NewestConcat(Links(wheels), ReadLinks(page), name);
    NoNewest(wheels, name);
  }
}
