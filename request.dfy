/**
 * `REQUEST.md`: a Markdown file of user requests, one `## [YYYY-MM-DD HH:MM] title`
 * heading per request (optionally marked `[done]`), each followed by a free
 * body. Parsing, the active goal sent to the agents, and the heading written
 * for a new request.
 */
module Request {
  import opened Kernel
  import opened Text

  datatype RequestEntry = RequestEntry(timestamp: string, title: string, body: string, done: bool)

  /** The two groups of a heading match: the timestamp and the untrimmed title. */
  datatype Heading = Heading(timestamp: string, capture: string)

  /** `\d{4}-\d{2}-\d{2} \d{2}:\d{2}`. */
  predicate IsTimestamp(s: string) {
    && |s| == 16
    && IsDigit(s[0]) && IsDigit(s[1]) && IsDigit(s[2]) && IsDigit(s[3]) && s[4] == '-'
    && IsDigit(s[5]) && IsDigit(s[6]) && s[7] == '-' && IsDigit(s[8]) && IsDigit(s[9])
    && s[10] == ' ' && IsDigit(s[11]) && IsDigit(s[12]) && s[13] == ':'
    && IsDigit(s[14]) && IsDigit(s[15])
  }

  /** A string `.` can match character by character. */
  predicate NoLineTerminator(s: string) {
    forall k :: 0 <= k < |s| ==> !IsLineTerminator(s[k])
  }

  /**
   * `\s*(.+)$` over the rest of a line, with `$` the end of the input. The
   * greedy `\s*` takes the whole leading whitespace run but gives one
   * character back when `(.+)` would otherwise be empty.
   */
  function CaptureRest(r: string): (c: Option<string>)
    ensures c.Some? ==> |c.value| >= 1 && NoLineTerminator(c.value)
    ensures c.Some? ==> EndsWith(r, c.value) && AllSpace(r[..|r| - |c.value|])
    ensures c.None? ==> forall k :: 0 <= k < |r| && AllSpace(r[..k]) ==> !NoLineTerminator(r[k..])
  {
    if |r| == 0 then None
    else
      TrimStartSuffix(r);
      var lead := |r| - |TrimStart(r)|;
      var k := if lead < |r| then lead else |r| - 1;
      assert AllSpace(r[..k]) by {
        assert r[..k] == r[..lead][..k];
      }
      if NoLineTerminator(r[k..]) then Some(r[k..]) else None
  }

  /** `\[(timestamp)\]\s*(.+)$` at the start of `b`. */
  function MatchBracketed(b: string): (h: Option<Heading>)
    ensures h.Some? ==> IsTimestamp(h.value.timestamp)
    ensures h.Some? ==> |h.value.capture| >= 1 && NoLineTerminator(h.value.capture)
  {
    if |b| < 18 || b[0] != '[' || !IsTimestamp(b[1..17]) || b[17] != ']' then None
    else
      match CaptureRest(b[18..])
      case None => None
      case Some(c) => Some(Heading(b[1..17], c))
  }

  /** The optional group `(\[done\]\s*)?`: what follows the mark when it is there. */
  function SkipDoneMark(a: string): string {
    if StartsWith(a, "[done]") then TrimStart(a[6..]) else a
  }

  /**
   * `HEADING_RE.exec(line)`: `## `, whitespace, an optional `[done]` with
   * whitespace, the bracketed timestamp, then the title to the end of the line.
   */
  function MatchHeading(line: string): (h: Option<Heading>)
    ensures h.Some? ==> StartsWith(line, "## ") && IsTimestamp(h.value.timestamp)
    ensures h.Some? ==> |h.value.capture| >= 1 && NoLineTerminator(h.value.capture)
  {
    if !StartsWith(line, "## ") then None
    else MatchBracketed(SkipDoneMark(TrimStart(line[3..])))
  }

  /** `DONE_RE.test(line)`: `## `, whitespace, then `[done]`. */
  predicate IsDoneLine(line: string) {
    StartsWith(line, "## ") && StartsWith(TrimStart(line[3..]), "[done]")
  }

  /** The entry a heading line opens, before any body line is added; `None` for other lines. */
  function Head(line: string): (h: Option<RequestEntry>)
  {
    match MatchHeading(line)
    case None => None
    case Some(m) => Some(RequestEntry(m.timestamp, Trim(m.capture), "", IsDoneLine(line)))
  }

  /** The loop state of `parseRequest`: the finished entries and the one being read. */
  datatype ScanState = ScanState(entries: seq<RequestEntry>, current: Option<RequestEntry>)

  /** The finished entries with the one being read pushed. */
  function Collected(st: ScanState): seq<RequestEntry> {
    if st.current.Some? then st.entries + [st.current.value] else st.entries
  }

  /** One line: a heading closes the current entry and opens a new one; any other line extends the body. */
  function ScanLine(st: ScanState, line: string): ScanState {
    match Head(line)
    case Some(e) => ScanState(Collected(st), Some(e))
    case None =>
      if st.current.Some? then ScanState(st.entries, Some(st.current.value.(body := st.current.value.body + line + "\n")))
      else st
  }

  function ScanLines(lines: seq<string>): ScanState
    decreases |lines|
  {
    if lines == [] then ScanState([], None)
    else ScanLine(ScanLines(lines[..|lines| - 1]), lines[|lines| - 1])
  }

  /** An entry with its body trimmed. */
  function TrimBody(e: RequestEntry): RequestEntry {
    e.(body := Trim(e.body))
  }

  function TrimBodies(es: seq<RequestEntry>): (r: seq<RequestEntry>)
    ensures |r| == |es|
    decreases |es|
  {
    if es == [] then [] else TrimBodies(es[..|es| - 1]) + [TrimBody(es[|es| - 1])]
  }

  /** Trimming the bodies trims each body in place. */
  lemma {:induction false} TrimBodiesAt(es: seq<RequestEntry>, i: nat)
    requires i < |es|
    ensures TrimBodies(es)[i] == TrimBody(es[i])
    decreases |es|
  {
    if i < |es| - 1 {
      TrimBodiesAt(es[..|es| - 1], i);
      assert TrimBodies(es) == TrimBodies(es[..|es| - 1]) + [TrimBody(es[|es| - 1])];
      assert es[..|es| - 1][i] == es[i];
    }
  }

  lemma TrimBodiesSnoc(es: seq<RequestEntry>, x: RequestEntry)
    ensures TrimBodies(es + [x]) == TrimBodies(es) + [TrimBody(x)]
  {
    assert (es + [x])[..|es|] == es;
  }

  /** What `parseRequest` returns for the file contents. */
  function Parse(content: string): seq<RequestEntry> {
    TrimBodies(Collected(ScanLines(Split(content, '\n'))))
  }

  /** `parseRequest`: the line loop, the last entry pushed, then the loop trimming bodies. */
  method ParseRequest(content: string) returns (entries: seq<RequestEntry>)
    ensures entries == Parse(content)
  {
    var lines := Split(content, '\n');
    var scanned, current := ScanEach(lines);
    ghost var st := ScanState(scanned, current);
    if current.Some? {
      scanned := scanned + [current.value];
    }
    assert scanned == Collected(st);
    entries := TrimEach(scanned);
  }

  /** The line loop of `parseRequest`, with its mutable current entry. */
  method ScanEach(lines: seq<string>) returns (entries: seq<RequestEntry>, current: Option<RequestEntry>)
    ensures ScanState(entries, current) == ScanLines(lines)
  {
    entries := [];
    current := None;
    for k := 0 to |lines|
      invariant ScanState(entries, current) == ScanLines(lines[..k])
    {
      ScanPrefixStep(lines, k);
      entries, current := ScanOne(entries, current, lines[k]);
    }
    assert lines[..|lines|] == lines;
  }

  /** The scan of one more line of the input. */
  lemma ScanPrefixStep(lines: seq<string>, k: nat)
    requires k < |lines|
    ensures ScanLines(lines[..k + 1]) == ScanLine(ScanLines(lines[..k]), lines[k])
  {
    assert lines[..k + 1][..k] == lines[..k];
  }

  /** The body of the line loop. */
  method ScanOne(entries: seq<RequestEntry>, current: Option<RequestEntry>, line: string)
    returns (entries': seq<RequestEntry>, current': Option<RequestEntry>)
    ensures ScanState(entries', current') == ScanLine(ScanState(entries, current), line)
  {
    ScanByMatch(ScanState(entries, current), line);
    entries', current' := entries, current;
    var m := MatchHeading(line);
    if m.Some? {
      if current.Some? {
        entries' := entries + [current.value];
      }
      current' := Some(RequestEntry(m.value.timestamp, Trim(m.value.capture), "", IsDoneLine(line)));
    } else if current.Some? {
      current' := Some(current.value.(body := current.value.body + line + "\n"));
    }
  }

  /** One step of the scan, written the way the loop computes it from the match. */
  lemma ScanByMatch(st: ScanState, line: string)
    ensures MatchHeading(line).Some? ==>
      var m := MatchHeading(line).value;
      ScanLine(st, line) == ScanState(Collected(st), Some(RequestEntry(m.timestamp, Trim(m.capture), "", IsDoneLine(line))))
    ensures MatchHeading(line).None? && st.current.Some? ==>
      ScanLine(st, line) == ScanState(st.entries, Some(st.current.value.(body := st.current.value.body + line + "\n")))
    ensures MatchHeading(line).None? && st.current.None? ==> ScanLine(st, line) == st
  {
  }

  /** The loop of `parseRequest` that trims every body in place. */
  method TrimEach(collected: seq<RequestEntry>) returns (entries: seq<RequestEntry>)
    ensures entries == TrimBodies(collected)
  {
    entries := collected;
    for i := 0 to |entries|
      invariant |entries| == |collected|
      invariant forall j :: 0 <= j < i ==> entries[j] == TrimBody(collected[j])
      invariant forall j :: i <= j < |entries| ==> entries[j] == collected[j]
    {
      entries := entries[i := TrimBody(entries[i])];
    }
    TrimBodiesEach(collected, entries);
  }

  /** A sequence holding each entry trimmed is the trimmed sequence. */
  lemma TrimBodiesEach(es: seq<RequestEntry>, r: seq<RequestEntry>)
    requires |r| == |es| && forall j :: 0 <= j < |es| ==> r[j] == TrimBody(es[j])
    ensures r == TrimBodies(es)
  {
    forall j | 0 <= j < |es| ensures r[j] == TrimBodies(es)[j] {
      TrimBodiesAt(es, j);
    }
  }

  /** The entries the heading lines open, in file order. */
  function Heads(lines: seq<string>): seq<RequestEntry>
    decreases |lines|
  {
    if lines == [] then []
    else
      var h := Head(lines[|lines| - 1]);
      if h.Some? then Heads(lines[..|lines| - 1]) + [h.value] else Heads(lines[..|lines| - 1])
  }

  /** The entries of `c` are those of `hs`, one for one, once their bodies are set aside. */
  predicate HeadsMatch(c: seq<RequestEntry>, hs: seq<RequestEntry>) {
    |c| == |hs| && forall i :: 0 <= i < |c| ==> c[i].(body := "") == hs[i]
  }

  lemma HeadsMatchSnoc(c: seq<RequestEntry>, hs: seq<RequestEntry>, x: RequestEntry, y: RequestEntry)
    requires HeadsMatch(c, hs) && x.(body := "") == y
    ensures HeadsMatch(c + [x], hs + [y])
  {
    forall i | 0 <= i < |c| + 1 ensures (c + [x])[i].(body := "") == (hs + [y])[i] {
      if i < |c| {
        assert (c + [x])[i] == c[i] && (hs + [y])[i] == hs[i];
      }
    }
  }

  lemma HeadsMatchInit(c: seq<RequestEntry>, hs: seq<RequestEntry>, x: RequestEntry)
    requires HeadsMatch(c + [x], hs) && |hs| >= 1
    ensures HeadsMatch(c, hs[..|hs| - 1]) && x.(body := "") == hs[|hs| - 1]
  {
    forall i | 0 <= i < |c| ensures c[i].(body := "") == hs[..|hs| - 1][i] {
      assert (c + [x])[i] == c[i];
    }
    assert (c + [x])[|c|] == x;
  }

  /** The scan opens exactly one entry per heading line, in order, and only appends to bodies afterwards. */
  lemma {:induction false} ScanFollowsHeadings(lines: seq<string>)
    ensures HeadsMatch(Collected(ScanLines(lines)), Heads(lines))
    ensures ScanLines(lines).current.None? <==> Heads(lines) == []
    decreases |lines|
  {
    if lines != [] {
      var init := lines[..|lines| - 1];
      var line := lines[|lines| - 1];
      ScanFollowsHeadings(init);
      var st := ScanLines(init);
      var hs0 := Heads(init);
      assert ScanLines(lines) == ScanLine(st, line);
      match Head(line)
      case Some(e) =>
        assert Heads(lines) == hs0 + [e];
        HeadsMatchSnoc(Collected(st), hs0, e, e);
      case None =>
        assert Heads(lines) == hs0;
        if st.current.Some? {
          var cur := st.current.value;
          HeadsMatchInit(st.entries, hs0, cur);
          HeadsMatchSnoc(st.entries, hs0[..|hs0| - 1], cur.(body := cur.body + line + "\n"), hs0[|hs0| - 1]);
          assert hs0[..|hs0| - 1] + [hs0[|hs0| - 1]] == hs0;
        }
    }
  }

  /** What each line of the file opens, line by line. */
  function HeadOfEach(lines: seq<string>): (hs: seq<Option<RequestEntry>>)
    ensures |hs| == |lines| && forall k {:trigger Head(lines[k])} :: 0 <= k < |lines| ==> hs[k] == Head(lines[k])
  {
    seq(|lines|, k requires 0 <= k < |lines| => Head(lines[k]))
  }

  /** The positions of `hs` that open an entry, in order. */
  function OpeningIndices(hs: seq<Option<RequestEntry>>): seq<nat>
    decreases |hs|
  {
    if hs == [] then []
    else OpeningIndices(hs[..|hs| - 1]) + (if hs[|hs| - 1].Some? then [|hs| - 1] else [])
  }

  /** The indices of the heading lines, in file order. */
  function HeadingLines(lines: seq<string>): seq<nat> {
    OpeningIndices(HeadOfEach(lines))
  }

  /** Strictly increasing indices, all below `n`. */
  predicate IncreasingBelow(ks: seq<nat>, n: nat) {
    && (forall i :: 0 <= i < |ks| ==> ks[i] < n)
    && (forall i, j :: 0 <= i < j < |ks| ==> ks[i] < ks[j])
  }

  /** Where the body under heading `i` stops: at the next heading line, or at the end of the file. */
  function BodyEnd(ks: seq<nat>, i: nat, n: nat): nat {
    if i + 1 < |ks| then ks[i + 1] else n
  }

  /** Lines `from` to `to - 1` of the file, each followed by a newline; nothing past the end of the file. */
  function BodyLines(lines: seq<string>, from: nat, to: nat): string
    decreases to
  {
    if to <= from || to > |lines| then "" else BodyLines(lines, from, to - 1) + lines[to - 1] + "\n"
  }

  /** Appending the index of a new last line keeps the indices increasing. */
  lemma IndicesSnoc(ks: seq<nat>, n: nat, isHead: bool)
    requires n >= 1 && IncreasingBelow(ks, n - 1)
    ensures IncreasingBelow(ks + (if isHead then [n - 1] else []), n)
  {
  }

  /** The opening indices of one more line. */
  lemma OpeningIndicesStep(hs: seq<Option<RequestEntry>>, m: nat)
    requires m < |hs|
    ensures OpeningIndices(hs[..m + 1]) == OpeningIndices(hs[..m]) + (if hs[m].Some? then [m] else [])
  {
    assert hs[..m + 1][..m] == hs[..m];
  }

  /** Over the first `m` positions, `OpeningIndices` lists exactly those that open an entry. */
  lemma {:induction false} OpeningIndicesOfPrefix(hs: seq<Option<RequestEntry>>, m: nat)
    requires m <= |hs|
    ensures forall k :: k in OpeningIndices(hs[..m]) ==> 0 <= k < m
    ensures forall k :: 0 <= k < m ==> (k in OpeningIndices(hs[..m]) <==> hs[k].Some?)
    decreases m
  {
    if m > 0 {
      OpeningIndicesOfPrefix(hs, m - 1);
      OpeningIndicesStep(hs, m - 1);
      MembersSnoc(OpeningIndices(hs[..m - 1]), m - 1, hs[m - 1].Some?);
    }
  }

  /** Appending the index `n` of a new last line, when it opens an entry, adds just that index. */
  lemma MembersSnoc(ks: seq<nat>, n: nat, isHead: bool)
    requires forall k :: k in ks ==> 0 <= k < n
    ensures forall k :: k in ks + (if isHead then [n] else []) <==> k in ks || (isHead && k == n)
  {
    if isHead {
      assert forall k :: k in ks + [n] <==> k in ks || k == n;
    } else {
      assert ks + [] == ks;
    }
  }

  /** `HeadingLines` lists exactly the lines that match the heading pattern, in order. */
  lemma HeadingLinesExact(lines: seq<string>)
    ensures IncreasingBelow(HeadingLines(lines), |lines|)
    ensures forall k :: 0 <= k < |lines| ==> (k in HeadingLines(lines) <==> Head(lines[k]).Some?)
  {
    var hs := HeadOfEach(lines);
    assert lines[..|lines|] == lines && hs[..|hs|] == hs;
    OpeningIndicesOfPrefix(hs, |hs|);
    ScanBodiesOfPrefix(lines, hs, |lines|);
  }

  /** Entry `i` the scan holds is what line `ks[i]` opens (`hs` gives that for every line), body aside. */
  predicate ScannedHeads(hs: seq<Option<RequestEntry>>, c: seq<RequestEntry>, ks: seq<nat>)
    requires |c| == |ks|
  {
    forall i :: 0 <= i < |ks| ==> ks[i] < |hs| && hs[ks[i]] == Some(c[i].(body := ""))
  }

  /** Once the first `m` lines are read, entry `i` holds the lines after line `ks[i]` up to the next heading. */
  predicate ScannedBodies(lines: seq<string>, m: nat, c: seq<RequestEntry>, ks: seq<nat>)
    requires |c| == |ks|
  {
    forall i :: 0 <= i < |ks| ==> c[i].body == BodyLines(lines, ks[i] + 1, BodyEnd(ks, i, m))
  }

  /** What the scan state `st` holds once the first `m` lines are read, `ks` being their heading lines. */
  predicate ScanInv(lines: seq<string>, hs: seq<Option<RequestEntry>>, m: nat, st: ScanState, ks: seq<nat>) {
    && IncreasingBelow(ks, m)
    && |Collected(st)| == |ks|
    && (st.current.None? <==> ks == [])
    && ScannedHeads(hs, Collected(st), ks)
    && ScannedBodies(lines, m, Collected(st), ks)
  }

  /**
   * Over the first `m` lines, the scan collects one entry per heading line,
   * holding as its body every line up to the next heading, each with its
   * newline.
   */
  lemma {:induction false} ScanBodiesOfPrefix(lines: seq<string>, hs: seq<Option<RequestEntry>>, m: nat)
    requires m <= |lines| && hs == HeadOfEach(lines)
    ensures ScanInv(lines, hs, m, ScanLines(lines[..m]), OpeningIndices(hs[..m]))
    decreases m
  {
    if m == 0 {
      assert lines[..0] == [] && hs[..0] == [];
    } else {
      var n := m - 1;
      ScanBodiesOfPrefix(lines, hs, n);
      ScanPrefixStep(lines, n);
      OpeningIndicesStep(hs, n);
      assert hs[n] == Head(lines[n]);
      ScanStep(lines, hs, n, ScanLines(lines[..n]), OpeningIndices(hs[..n]));
    }
  }

  /** The scan of one line, by what the line opens. */
  lemma ScanLineByHead(st: ScanState, line: string, h: Option<RequestEntry>)
    requires h == Head(line)
    ensures h.Some? ==> ScanLine(st, line) == ScanState(Collected(st), h)
    ensures h.None? && st.current.Some? ==>
      ScanLine(st, line) == ScanState(st.entries, Some(st.current.value.(body := st.current.value.body + line + "\n")))
    ensures h.None? && st.current.None? ==> ScanLine(st, line) == st
  {
  }

  /** Reading line `n` keeps the scan invariant, the line's index joining `ks` when it is a heading. */
  lemma ScanStep(lines: seq<string>, hs: seq<Option<RequestEntry>>, n: nat, st: ScanState, ks: seq<nat>)
    requires n < |lines| && n < |hs| && hs[n] == Head(lines[n])
    requires ScanInv(lines, hs, n, st, ks)
    ensures ScanInv(lines, hs, n + 1, ScanLine(st, lines[n]), ks + (if hs[n].Some? then [n] else []))
  {
    var h := hs[n];
    var c := Collected(st);
    ScanLineByHead(st, lines[n], h);
    IndicesSnoc(ks, n + 1, h.Some?);
    if h.Some? {
      ScanHeadsOpen(hs, n, c, ks, h.value);
      ScanBodiesOpen(lines, n, c, ks, h.value);
    } else if st.current.Some? {
      var cur := st.current.value;
      ScanHeadsExtend(hs, st.entries, cur, ks, lines[n] + "\n");
      ScanBodiesExtend(lines, n, st.entries, cur, ks);
      assert ks + [] == ks;
    } else {
      assert ks + [] == ks;
    }
  }

  /** A heading at line `n` opens the entry that line gives, after the earlier ones. */
  lemma ScanHeadsOpen(hs: seq<Option<RequestEntry>>, n: nat, c: seq<RequestEntry>, ks: seq<nat>, e: RequestEntry)
    requires n < |hs| && hs[n] == Some(e) && e.body == ""
    requires |c| == |ks| && ScannedHeads(hs, c, ks)
    ensures ScannedHeads(hs, c + [e], ks + [n])
  {
    var ks1, c1 := ks + [n], c + [e];
    forall i | 0 <= i < |ks1|
      ensures ks1[i] < |hs| && hs[ks1[i]] == Some(c1[i].(body := ""))
    {
      if i < |ks| {
        assert ks1[i] == ks[i] && c1[i] == c[i];
      } else {
        assert c1[i] == e && ks1[i] == n;
      }
    }
  }

  /** Adding to the body of the entry being read leaves every heading as it was. */
  lemma ScanHeadsExtend(hs: seq<Option<RequestEntry>>, done: seq<RequestEntry>, cur: RequestEntry, ks: seq<nat>, more: string)
    requires |done + [cur]| == |ks| && ScannedHeads(hs, done + [cur], ks)
    ensures ScannedHeads(hs, done + [cur.(body := cur.body + more)], ks)
  {
    var c, c1 := done + [cur], done + [cur.(body := cur.body + more)];
    forall i | 0 <= i < |ks|
      ensures ks[i] < |hs| && hs[ks[i]] == Some(c1[i].(body := ""))
    {
      assert c1[i].(body := "") == c[i].(body := "");
    }
  }

  /** A heading at line `n` opens an empty body and leaves the earlier bodies where they were. */
  lemma ScanBodiesOpen(lines: seq<string>, n: nat, c: seq<RequestEntry>, ks: seq<nat>, e: RequestEntry)
    requires e.body == ""
    requires |c| == |ks| && ScannedBodies(lines, n, c, ks)
    ensures ScannedBodies(lines, n + 1, c + [e], ks + [n])
  {
    var ks1, c1 := ks + [n], c + [e];
    forall i | 0 <= i < |ks1|
      ensures c1[i].body == BodyLines(lines, ks1[i] + 1, BodyEnd(ks1, i, n + 1))
    {
      if i < |ks| {
        BodyOpenKept(lines, n, c, ks, e, i);
      } else {
        assert c1[i] == e && ks1[i] == n;
      }
    }
  }

  /** An earlier body is unchanged by a heading at line `n`, which is where it now ends. */
  lemma BodyOpenKept(lines: seq<string>, n: nat, c: seq<RequestEntry>, ks: seq<nat>, e: RequestEntry, i: nat)
    requires i < |ks| == |c| && c[i].body == BodyLines(lines, ks[i] + 1, BodyEnd(ks, i, n))
    ensures (c + [e])[i].body == BodyLines(lines, (ks + [n])[i] + 1, BodyEnd(ks + [n], i, n + 1))
  {
    BodyEndSnoc(ks, n, i);
    assert (c + [e])[i] == c[i] && (ks + [n])[i] == ks[i];
  }

  /** A new last heading `n` ends the body of the one before it. */
  lemma BodyEndSnoc(ks: seq<nat>, n: nat, i: nat)
    requires i < |ks|
    ensures BodyEnd(ks + [n], i, n + 1) == BodyEnd(ks, i, n)
  {
    if i + 1 < |ks| {
      assert (ks + [n])[i + 1] == ks[i + 1];
    } else {
      assert (ks + [n])[i + 1] == n;
    }
  }

  /** Any other line `n` joins, with its newline, the body of the entry being read. */
  lemma ScanBodiesExtend(lines: seq<string>, n: nat, done: seq<RequestEntry>, cur: RequestEntry, ks: seq<nat>)
    requires n < |lines|
    requires IncreasingBelow(ks, n) && |done + [cur]| == |ks| && ScannedBodies(lines, n, done + [cur], ks)
    ensures ScannedBodies(lines, n + 1, done + [cur.(body := cur.body + lines[n] + "\n")], ks)
  {
    var c, c1 := done + [cur], done + [cur.(body := cur.body + lines[n] + "\n")];
    forall i | 0 <= i < |ks|
      ensures c1[i].body == BodyLines(lines, ks[i] + 1, BodyEnd(ks, i, n + 1))
    {
      if i + 1 < |ks| {
        assert c1[i] == c[i];
      } else {
        assert c[i] == cur && c1[i] == cur.(body := cur.body + lines[n] + "\n");
        assert ks[i] < n && BodyEnd(ks, i, n) == n;
        assert BodyLines(lines, ks[i] + 1, n + 1) == BodyLines(lines, ks[i] + 1, n) + lines[n] + "\n";
      }
    }
  }

  lemma TrimIdempotent(s: string)
    ensures Trim(Trim(s)) == Trim(s)
  {
    var t := Trim(s);
    // `t` has no whitespace at either end, so neither trim removes anything.
    TrimEndPrefix(TrimStart(s));
    assert t == [] || t[0] == TrimStart(s)[0];
    assert TrimStart(t) == t;
  }

  /**
   * `parseRequest` returns one entry per heading line, in file order, with the
   * heading's timestamp, its trimmed title, a `done` flag that is the `[done]`
   * mark and a trimmed body; text before the first heading yields nothing.
   */
  lemma ParseEntries(content: string)
    ensures var hs := Heads(Split(content, '\n'));
      var es := Parse(content);
      && |es| == |hs|
      && forall i :: 0 <= i < |hs| ==>
           && es[i].timestamp == hs[i].timestamp
           && es[i].title == hs[i].title
           && es[i].done == hs[i].done
           && es[i].body == Trim(es[i].body)
  {
    var lines := Split(content, '\n');
    ScanFollowsHeadings(lines);
    var c := Collected(ScanLines(lines));
    var hs := Heads(lines);
    var es := Parse(content);
    forall i | 0 <= i < |hs|
      ensures es[i].timestamp == hs[i].timestamp && es[i].title == hs[i].title && es[i].done == hs[i].done
      ensures es[i].body == Trim(es[i].body)
    {
      assert c[i].(body := "") == hs[i];
      TrimBodiesAt(c, i);
      TrimIdempotent(c[i].body);
    }
  }

  /**
   * The scan collects, for the `i`-th heading line, the entry that line opens
   * with the lines up to the next heading as body.
   */
  lemma CollectedAtHeadingLines(lines: seq<string>)
    ensures ScanInv(lines, HeadOfEach(lines), |lines|, ScanLines(lines), HeadingLines(lines))
  {
    var hs := HeadOfEach(lines);
    assert lines[..|lines|] == lines && hs[..|hs|] == hs;
    ScanBodiesOfPrefix(lines, hs, |lines|);
  }

  /**
   * Entry `i` of `parseRequest` is what the file's `i`-th heading line opens
   * (`HeadOfEach` gives that per line), with as body the lines from just after
   * that heading up to the next heading (or the end of the file), joined with
   * newlines and trimmed.
   */
  lemma ParseEntriesAtHeadingLines(content: string)
    ensures var lines := Split(content, '\n');
      var ks, hs := HeadingLines(lines), HeadOfEach(lines);
      var es := Parse(content);
      && |es| == |ks|
      && forall i :: 0 <= i < |ks| ==> ParsedAt(lines, hs, ks, es, i)
  {
    var lines := Split(content, '\n');
    CollectedAtHeadingLines(lines);
    var ks, hs := HeadingLines(lines), HeadOfEach(lines);
    var c := Collected(ScanLines(lines));
    var es := Parse(content);
    assert es == TrimBodies(c);
    forall i | 0 <= i < |ks| ensures ParsedAt(lines, hs, ks, es, i) {
      assert ks[i] < |hs| && hs[ks[i]] == Some(c[i].(body := ""));
      assert c[i].body == BodyLines(lines, ks[i] + 1, BodyEnd(ks, i, |lines|));
      TrimBodiesAt(c, i);
    }
  }

  /** Entry `i` is what line `ks[i]` opens, with its body trimmed. */
  predicate ParsedAt(lines: seq<string>, hs: seq<Option<RequestEntry>>, ks: seq<nat>, es: seq<RequestEntry>, i: nat) {
    && i < |ks| && i < |es|
    && ks[i] < |hs|
    && hs[ks[i]].Some?
    && es[i] == hs[ks[i]].value.(body := Trim(BodyLines(lines, ks[i] + 1, BodyEnd(ks, i, |lines|))))
  }

  /** The entry a heading line contributes carries that line's timestamp, trimmed title and mark. */
  lemma HeadsAreHeadings(lines: seq<string>, i: nat)
    requires i < |Heads(lines)|
    ensures exists k :: 0 <= k < |lines| && Head(lines[k]) == Some(Heads(lines)[i])
    decreases |lines|
  {
    var init := lines[..|lines| - 1];
    var h := Head(lines[|lines| - 1]);
    if i < |Heads(init)| {
      HeadsAreHeadings(init, i);
      var k :| 0 <= k < |init| && Head(init[k]) == Some(Heads(init)[i]);
      assert lines[k] == init[k];
    } else {
      assert Heads(lines)[i] == h.value;
    }
  }

  /** Empty content and a file holding only its title line have no entries. */
  lemma NoHeadingsNoEntries()
    ensures Parse("") == []
    ensures Parse("# Request\n") == []
  {
    assert Split("", '\n') == [""];
    assert Head("") == None;
    assert ScanLines([""]) == ScanLine(ScanLines([]), "") by {
      assert [""][..0] == [];
    }
    SplitConcat("# Request", "", '\n');
    assert "# Request" + ['\n'] + "" == "# Request\n";
    assert Split("# Request\n", '\n') == ["# Request", ""];
    assert Head("# Request") == None;
    assert ScanLines(["# Request", ""]) == ScanLine(ScanLines(["# Request"]), "") by {
      assert ["# Request", ""][..1] == ["# Request"];
    }
    assert ScanLines(["# Request"]) == ScanLine(ScanLines([]), "# Request") by {
      assert ["# Request"][..0] == [];
    }
  }

  // ---------------------------------------------------------------------------
  // The active goal

  function ActiveEntries(entries: seq<RequestEntry>): (r: seq<RequestEntry>)
    ensures |r| <= |entries|
    decreases |entries|
  {
    if entries == [] then []
    else if entries[0].done then ActiveEntries(entries[1..])
    else [entries[0]] + ActiveEntries(entries[1..])
  }

  /** The kept entries are exactly the entries that are not done. */
  lemma {:induction false} ActiveEntriesMembers(entries: seq<RequestEntry>)
    ensures forall e :: e in ActiveEntries(entries) <==> e in entries && !e.done
    decreases |entries|
  {
    if entries != [] {
      ActiveEntriesMembers(entries[1..]);
      assert forall e :: e in entries <==> e == entries[0] || e in entries[1..];
    }
  }

  /**
   * The un-done entries keep their file order: those of a concatenation are
   * those of each part, in turn.
   */
  lemma {:induction false} ActiveEntriesInOrder(a: seq<RequestEntry>, b: seq<RequestEntry>)
    ensures ActiveEntries(a + b) == ActiveEntries(a) + ActiveEntries(b)
    decreases |a|
  {
    if a == [] {
      assert a + b == b;
    } else {
      var ab := a + b;
      assert ab[0] == a[0] && ab[1..] == a[1..] + b;
      ActiveEntriesInOrder(a[1..], b);
      if !a[0].done {
        assert [a[0]] + (ActiveEntries(a[1..]) + ActiveEntries(b)) == ([a[0]] + ActiveEntries(a[1..])) + ActiveEntries(b);
      }
    }
  }

  /** A single entry is kept exactly when it is not done. */
  lemma ActiveEntryOfOne(e: RequestEntry)
    ensures ActiveEntries([e]) == if e.done then [] else [e]
  {
    assert [e][1..] == [];
  }

  /** `[timestamp] title`, then a newline and the body when the body is not empty. */
  function RenderEntry(e: RequestEntry): (r: string)
    ensures StartsWith(r, "[" + e.timestamp + "] " + e.title)
    ensures e.body != "" <==> |r| > |e.timestamp| + |e.title| + 3
    ensures e.body != "" ==> r == "[" + e.timestamp + "] " + e.title + "\n" + e.body
    ensures e.body == "" ==> r == "[" + e.timestamp + "] " + e.title
  {
    var header := "[" + e.timestamp + "] " + e.title;
    if e.body != "" then header + "\n" + e.body else header
  }

  function RenderAll(es: seq<RequestEntry>): (r: seq<string>)
    ensures |r| == |es| && forall i :: 0 <= i < |es| ==> r[i] == RenderEntry(es[i])
  {
    seq(|es|, i requires 0 <= i < |es| => RenderEntry(es[i]))
  }

  lemma RenderAllAppend(p: seq<RequestEntry>, q: seq<RequestEntry>)
    ensures RenderAll(p + q) == RenderAll(p) + RenderAll(q)
  {
    var l, r := RenderAll(p + q), RenderAll(p) + RenderAll(q);
    forall i | 0 <= i < |l| ensures l[i] == r[i] {
      if i < |p| {
        assert (p + q)[i] == p[i];
      } else {
        assert (p + q)[i] == q[i - |p|];
      }
    }
  }

  /** `getActiveGoal`: the un-done entries, rendered and separated by a blank line. */
  function GetActiveGoal(entries: seq<RequestEntry>): string {
    Join(RenderAll(ActiveEntries(entries)), "\n\n")
  }

  /**
   * The goal is empty exactly when every entry is done, and it contains the
   * rendering of every entry that is not.
   */
  lemma ActiveGoalContents(entries: seq<RequestEntry>)
    ensures GetActiveGoal(entries) == "" <==> forall i :: 0 <= i < |entries| ==> entries[i].done
    ensures forall i :: 0 <= i < |entries| && !entries[i].done ==> Contains(GetActiveGoal(entries), RenderEntry(entries[i]))
  {
    var active := ActiveEntries(entries);
    ActiveEntriesMembers(entries);
    var parts := RenderAll(active);
    if |parts| >= 1 {
      JoinStartsWith(parts, "\n\n");
      assert |parts[0]| >= 1;
      assert active[0] in active;
    } else {
      assert forall i :: 0 <= i < |entries| ==> entries[i].done by {
        forall i | 0 <= i < |entries| ensures entries[i].done {
          assert entries[i] in entries;
        }
      }
    }
    forall i | 0 <= i < |entries| && !entries[i].done
      ensures Contains(GetActiveGoal(entries), RenderEntry(entries[i]))
    {
      assert entries[i] in active;
      var j :| 0 <= j < |active| && active[j] == entries[i];
      JoinContains(parts, "\n\n", j);
    }
  }

  /** The goal of a single entry is its rendering, or nothing when it is done. */
  lemma GoalOfOne(e: RequestEntry)
    ensures GetActiveGoal([e]) == if e.done then "" else RenderEntry(e)
  {
    ActiveEntryOfOne(e);
    if !e.done {
      assert RenderAll([e]) == [RenderEntry(e)];
    }
  }

  /**
   * The goal of a concatenation: the goals of the two parts joined by one
   * blank line when both have un-done entries, and otherwise the goal of the
   * part that has them.
   */
  lemma GoalOfConcat(a: seq<RequestEntry>, b: seq<RequestEntry>)
    ensures (forall i :: 0 <= i < |a| ==> a[i].done) ==> GetActiveGoal(a + b) == GetActiveGoal(b)
    ensures (forall i :: 0 <= i < |b| ==> b[i].done) ==> GetActiveGoal(a + b) == GetActiveGoal(a)
    ensures (exists i :: 0 <= i < |a| && !a[i].done) && (exists j :: 0 <= j < |b| && !b[j].done) ==>
      GetActiveGoal(a + b) == GetActiveGoal(a) + "\n\n" + GetActiveGoal(b)
  {
    ActiveEntriesInOrder(a, b);
    var xa, xb := ActiveEntries(a), ActiveEntries(b);
    RenderAllAppend(xa, xb);
    ActiveNoneIffAllDone(a);
    ActiveNoneIffAllDone(b);
    if xa == [] {
      assert xa + xb == xb;
    } else if xb == [] {
      assert xa + xb == xa;
    } else {
      JoinAppend(RenderAll(xa), RenderAll(xb), "\n\n");
    }
  }

  /** No entry is kept exactly when every entry is done. */
  lemma ActiveNoneIffAllDone(entries: seq<RequestEntry>)
    ensures ActiveEntries(entries) == [] <==> forall i :: 0 <= i < |entries| ==> entries[i].done
  {
    var r := ActiveEntries(entries);
    ActiveEntriesMembers(entries);
    if r != [] {
      assert r[0] in r;
    } else {
      forall i | 0 <= i < |entries| ensures entries[i].done {
        assert entries[i] in entries;
      }
    }
  }

  // ---------------------------------------------------------------------------
  // New entries

  /** The local time fields `formatNewEntry` reads from the clock; `month` is 0-based. */
  datatype LocalTime = LocalTime(year: nat, month: nat, day: nat, hours: nat, minutes: nat)

  predicate ValidTime(t: LocalTime) {
    1000 <= t.year <= 9999 && t.month < 12 && 1 <= t.day <= 31 && t.hours < 24 && t.minutes < 60
  }

  /** `String(n).padStart(2, "0")`. */
  function Pad2(n: nat): string {
    PadStart(NatToString(n), 2, '0')
  }

  function FormatTimestamp(t: LocalTime): string {
    NatToString(t.year) + "-" + Pad2(t.month + 1) + "-" + Pad2(t.day) + " " + Pad2(t.hours) + ":" + Pad2(t.minutes)
  }

  function FormatHeading(t: LocalTime, title: string): string {
    "## [" + FormatTimestamp(t) + "] " + title
  }

  /** `formatNewEntry`: the heading, then a blank line and the body when the body is not empty. */
  function FormatNewEntry(t: LocalTime, title: string, body: string): (r: string)
    ensures StartsWith(r, FormatHeading(t, title))
    ensures body == "" <==> r == FormatHeading(t, title)
    ensures body != "" ==> r == FormatHeading(t, title) + "\n\n" + body
  {
    var heading := FormatHeading(t, title);
    if body != "" then heading + "\n\n" + body else heading
  }

  /** The contents `writeRequestEntry` writes: the new entry appended to the file, or a fresh file. */
  function AppendEntry(existing: string, entry: string): string {
    if existing != "" then TrimEnd(existing) + "\n\n" + entry + "\n" else "# Request\n\n" + entry + "\n"
  }

  lemma Pad2Digits(n: nat)
    requires n < 100
    ensures |Pad2(n)| == 2 && AllDigits(Pad2(n))
  {
    if n >= 10 {
      assert NatToString(n) == NatToString(n / 10) + [DigitChar(n % 10)];
    }
  }

  lemma FourDigitYear(n: nat)
    requires 1000 <= n <= 9999
    ensures |NatToString(n)| == 4
  {
    var a := n / 10;
    var b := a / 10;
    var c := b / 10;
    assert 100 <= a <= 999 && 10 <= b <= 99 && 1 <= c <= 9;
    assert |NatToString(c)| == 1;
    assert |NatToString(b)| == 2;
    assert |NatToString(a)| == 3;
  }

  predicate AllDigits(s: string) {
    forall k :: 0 <= k < |s| ==> IsDigit(s[k])
  }

  lemma TimestampOfParts(s: string, y: string, mo: string, d: string, h: string, mi: string)
    requires |y| == 4 && |mo| == 2 && |d| == 2 && |h| == 2 && |mi| == 2
    requires AllDigits(y) && AllDigits(mo) && AllDigits(d) && AllDigits(h) && AllDigits(mi)
    requires s == y + "-" + mo + "-" + d + " " + h + ":" + mi
    ensures IsTimestamp(s)
  {
    assert s[0] == y[0] && s[1] == y[1] && s[2] == y[2] && s[3] == y[3];
    assert s[5] == mo[0] && s[6] == mo[1] && s[8] == d[0] && s[9] == d[1];
    assert s[11] == h[0] && s[12] == h[1] && s[14] == mi[0] && s[15] == mi[1];
  }

  /** A valid local time renders in the shape the heading pattern expects. */
  lemma TimestampShape(t: LocalTime)
    requires ValidTime(t)
    ensures IsTimestamp(FormatTimestamp(t))
  {
    var y, mo, d, h, mi := NatToString(t.year), Pad2(t.month + 1), Pad2(t.day), Pad2(t.hours), Pad2(t.minutes);
    FourDigitYear(t.year);
    Pad2Digits(t.month + 1);
    Pad2Digits(t.day);
    Pad2Digits(t.hours);
    Pad2Digits(t.minutes);
    TimestampOfParts(FormatTimestamp(t), y, mo, d, h, mi);
  }

  /** A non-empty single-line rest: the capture is a suffix of it, and trims to what the rest trims to. */
  lemma CaptureSingleLine(r: string)
    requires |r| >= 1 && NoLineTerminator(r)
    ensures CaptureRest(r).Some? && Trim(CaptureRest(r).value) == Trim(r)
  {
    var lead := |r| - |TrimStart(r)|;
    var k := if lead < |r| then lead else |r| - 1;
    assert NoLineTerminator(r[k..]) by {
      forall m | 0 <= m < |r| - k ensures !IsLineTerminator(r[k..][m]) {
        assert r[k..][m] == r[k + m];
      }
    }
    var c := CaptureRest(r).value;
    var w := r[..|r| - |c|];
    assert r == w + c;
    TrimLeadingSpace(w, c);
  }

  /** A space followed by a single-line title has no line terminator. */
  lemma SpacedTitle(title: string)
    requires NoLineTerminator(title)
    ensures NoLineTerminator(" " + title) && Trim(" " + title) == Trim(title)
  {
    var r := " " + title;
    forall k | 0 <= k < |r| ensures !IsLineTerminator(r[k]) {
      if k >= 1 { assert r[k] == title[k - 1]; }
    }
    TrimLeadingSpace(" ", title);
  }

  /** The bracketed part of a heading reads back the timestamp and a capture that trims like the title. */
  lemma MatchDatedBracket(b: string, ts: string, title: string)
    requires IsTimestamp(ts) && NoLineTerminator(title)
    requires b == "[" + ts + "] " + title
    ensures MatchBracketed(b).Some?
    ensures MatchBracketed(b).value.timestamp == ts
    ensures Trim(MatchBracketed(b).value.capture) == Trim(title)
  {
    assert b[1..17] == ts;
    assert b[17] == ']';
    var r := b[18..];
    assert r == " " + title;
    SpacedTitle(title);
    CaptureSingleLine(r);
  }

  /** The heading pattern reads back a bracketed timestamp and a single-line title. */
  lemma MatchDatedHeading(line: string, ts: string, title: string)
    requires IsTimestamp(ts) && NoLineTerminator(title)
    requires line == "## [" + ts + "] " + title
    ensures MatchHeading(line).Some?
    ensures MatchHeading(line).value.timestamp == ts
    ensures Trim(MatchHeading(line).value.capture) == Trim(title)
    ensures !IsDoneLine(line)
  {
    assert line[..3] == "## ";
    var a := line[3..];
    assert a == "[" + ts + "] " + title;
    assert a[0] == '[' && a[1] == ts[0];
    assert TrimStart(a) == a;
    assert !StartsWith(a, "[done]") by {
      assert a[..6][1] == a[1];
    }
    assert SkipDoneMark(a) == a;
    MatchDatedBracket(a, ts, title);
  }

  /** A single-line title: the heading written for it matches, unmarked, with the title back after trimming. */
  lemma HeadingRoundTrip(t: LocalTime, title: string)
    requires ValidTime(t) && NoLineTerminator(title)
    ensures var line := FormatHeading(t, title);
      && MatchHeading(line).Some?
      && MatchHeading(line).value.timestamp == FormatTimestamp(t)
      && Trim(MatchHeading(line).value.capture) == Trim(title)
      && !IsDoneLine(line)
  {
    TimestampShape(t);
    MatchDatedHeading(FormatHeading(t, title), FormatTimestamp(t), title);
  }

  /** A timestamp holds no newline. */
  lemma TimestampSingleLine(ts: string)
    requires IsTimestamp(ts)
    ensures '\n' !in ts
  {
    forall k | 0 <= k < 16 ensures ts[k] != '\n' {
      assert k == 4 || k == 7 || k == 10 || k == 13 || IsDigit(ts[k]);
    }
  }

  /** The heading line written for a single-line title is one line. */
  lemma HeadingSingleLine(line: string, ts: string, title: string)
    requires IsTimestamp(ts) && NoLineTerminator(title)
    requires line == "## [" + ts + "] " + title
    ensures '\n' !in line
  {
    TimestampSingleLine(ts);
    forall k | 0 <= k < |line| ensures line[k] != '\n' {
      if k >= 4 + |ts| + 2 {
        assert line[k] == title[k - (4 + |ts| + 2)];
      } else if k >= 4 && k < 4 + |ts| {
        assert line[k] == ts[k - 4];
      }
    }
  }

  /** Lines concatenated with a newline after each. */
  function Lines(ls: seq<string>): string
    decreases |ls|
  {
    if ls == [] then "" else ls[0] + "\n" + Lines(ls[1..])
  }

  lemma {:induction false} LinesSnoc(ls: seq<string>, l: string)
    ensures Lines(ls + [l]) == Lines(ls) + l + "\n"
    decreases |ls|
  {
    if ls == [] {
      assert [] + [l] == [l];
    } else {
      assert (ls + [l])[1..] == ls[1..] + [l];
      LinesSnoc(ls[1..], l);
    }
  }

  lemma {:induction false} LinesJoin(ls: seq<string>)
    requires |ls| >= 1
    ensures Lines(ls) == Join(ls, "\n") + "\n"
    decreases |ls|
  {
    if |ls| > 1 {
      LinesJoin(ls[1..]);
    }
  }

  /** A line that is not a heading adds nothing to the headings in front of others. */
  lemma {:induction false} HeadsPrepend(l: string, xs: seq<string>)
    requires Head(l).None?
    ensures Heads([l] + xs) == Heads(xs)
    decreases |xs|
  {
    if xs == [] {
      assert ([l] + xs)[..0] == [];
    } else {
      var init := xs[..|xs| - 1];
      assert ([l] + xs)[..|xs|] == [l] + init;
      HeadsPrepend(l, init);
    }
  }

  /** One more line of the scan. */
  lemma ScanSnoc(ls: seq<string>, l: string)
    ensures ScanLines(ls + [l]) == ScanLine(ScanLines(ls), l)
  {
    assert (ls + [l])[..|ls|] == ls;
  }

  /** A line that is not a heading extends the body of the entry being read, if any. */
  lemma ScanBodyStep(st: ScanState, line: string)
    requires Head(line).None?
    ensures st.current.Some? ==> ScanLine(st, line) == ExtendBody(st, line + "\n")
    ensures st.current.None? ==> ScanLine(st, line) == st
  {
    if st.current.Some? {
      var b := st.current.value.body;
      assert b + line + "\n" == b + (line + "\n");
    }
  }

  /** The scan state with text added to the body of the entry being read. */
  function ExtendBody(st: ScanState, text: string): ScanState
    requires st.current.Some?
  {
    ScanState(st.entries, Some(st.current.value.(body := st.current.value.body + text)))
  }

  lemma ExtendBodyTwice(st: ScanState, a: string, b: string)
    requires st.current.Some?
    ensures ExtendBody(ExtendBody(st, a), b) == ExtendBody(st, a + b)
  {
    assert st.current.value.body + a + b == st.current.value.body + (a + b);
  }

  lemma HeadsSnocEmpty(init: seq<string>, last: string)
    requires Heads(init + [last]) == []
    ensures Heads(init) == [] && Head(last).None?
  {
    assert (init + [last])[..|init|] == init;
  }

  /** The scan continued from a given state. */
  function ScanFrom(st: ScanState, lines: seq<string>): ScanState
    decreases |lines|
  {
    if lines == [] then st else ScanLine(ScanFrom(st, lines[..|lines| - 1]), lines[|lines| - 1])
  }

  /** Scanning two runs of lines is scanning the second from where the first left off. */
  lemma {:induction false} ScanAppend(pre: seq<string>, rest: seq<string>)
    ensures ScanLines(pre + rest) == ScanFrom(ScanLines(pre), rest)
    decreases |rest|
  {
    if rest == [] {
      assert pre + rest == pre;
    } else {
      var init := rest[..|rest| - 1];
      var last := rest[|rest| - 1];
      var x := ScanLines(pre + init);
      var y := ScanFrom(ScanLines(pre), init);
      assert x == y by {
        ScanAppend(pre, init);
      }
      assert ScanLines(pre + rest) == ScanLine(x, last) by {
        assert pre + rest == (pre + init) + [last];
        ScanSnoc(pre + init, last);
      }
      assert ScanFrom(ScanLines(pre), rest) == ScanLine(y, last);
    }
  }

  /** Lines that are not headings only extend the body of the entry being read. */
  lemma {:induction false} ScanFromBody(st: ScanState, rest: seq<string>)
    requires st.current.Some?
    requires Heads(rest) == []
    ensures ScanFrom(st, rest) == ExtendBody(st, Lines(rest))
    decreases |rest|
  {
    if rest == [] {
      assert st.current.value.(body := st.current.value.body + "") == st.current.value;
    } else {
      var init := rest[..|rest| - 1];
      var last := rest[|rest| - 1];
      assert init + [last] == rest;
      HeadsSnocEmpty(init, last);
      ScanFromBody(st, init);
      ExtendLine(st, Lines(init), last);
      LinesSnoc(init, last);
    }
  }

  /** Lines that are not headings only extend the body of the entry being read. */
  lemma ScanBodyLines(pre: seq<string>, rest: seq<string>)
    requires ScanLines(pre).current.Some?
    requires Heads(rest) == []
    ensures ScanLines(pre + rest) == ExtendBody(ScanLines(pre), Lines(rest))
  {
    ScanAppend(pre, rest);
    ScanFromBody(ScanLines(pre), rest);
  }

  /** A line that is not a heading, read after text was added to the body, adds itself too. */
  lemma ExtendLine(st: ScanState, text: string, last: string)
    requires st.current.Some? && Head(last).None?
    ensures ScanLine(ExtendBody(st, text), last) == ExtendBody(st, text + last + "\n")
  {
    ScanBodyStep(ExtendBody(st, text), last);
    ExtendBodyTwice(st, text, last + "\n");
    assert text + (last + "\n") == text + last + "\n";
  }

  /** A heading line on its own opens its entry and nothing else. */
  lemma ParseHeadingOnly(heading: string, e: RequestEntry)
    requires '\n' !in heading && Head(heading) == Some(e)
    ensures Parse(heading) == [e]
  {
    assert ScanLines(Split(heading, '\n')) == ScanState([], Some(e)) by {
      SplitNoSeparator(heading, '\n');
      ScanSnoc([], heading);
      assert [] + [heading] == [heading];
    }
    ParseSingle(heading, e);
    assert e.(body := Trim(e.body)) == e by {
      assert e.body == "" && Trim("") == "";
    }
  }

  /** A heading line, a blank line and a body without headings parse to the heading's entry with the trimmed body. */
  lemma ParseHeadedBody(heading: string, e: RequestEntry, body: string)
    requires '\n' !in heading && Head(heading) == Some(e)
    requires Heads(Split(body, '\n')) == []
    ensures Parse(heading + "\n\n" + body) == [e.(body := Trim(body))]
  {
    var content := heading + "\n\n" + body;
    var rest := [""] + Split(body, '\n');
    var last := e.(body := "" + Lines(rest));
    assert ScanLines([heading] + rest) == ScanState([], Some(last)) by {
      assert Head("") == None;
      HeadsPrepend("", Split(body, '\n'));
      assert ScanLines([heading]) == ScanState([], Some(e)) by {
        ScanSnoc([], heading);
        assert [] + [heading] == [heading];
      }
      ScanBodyLines([heading], rest);
    }
    assert ScanLines(Split(content, '\n')) == ScanState([], Some(last)) by {
      SplitHeadedBody(heading, body);
    }
    ParseSingle(content, last);
    assert last.body == "" + ("\n" + body + "\n") by {
      LinesOfBody(body);
    }
    TrimmedBody(body);
  }

  /** A scan that ends with one open entry and nothing finished parses to that entry, trimmed. */
  lemma ParseSingle(content: string, x: RequestEntry)
    requires ScanLines(Split(content, '\n')) == ScanState([], Some(x))
    ensures Parse(content) == [x.(body := Trim(x.body))]
  {
    assert Collected(ScanState([], Some(x))) == [] + [x];
    TrimBodiesSnoc([], x);
  }

  /** The lines of a heading, a blank line and a body. */
  lemma SplitHeadedBody(heading: string, body: string)
    requires '\n' !in heading
    ensures Split(heading + "\n\n" + body, '\n') == [heading] + ([""] + Split(body, '\n'))
  {
    assert heading + "\n\n" + body == heading + ['\n'] + (['\n'] + body);
    SplitConcat(heading, ['\n'] + body, '\n');
    SplitLeadingSeparator(body, '\n');
  }

  /** The body the scan accumulates for a blank line and the body's lines. */
  lemma LinesOfBody(body: string)
    ensures Lines([""] + Split(body, '\n')) == "\n" + body + "\n"
  {
    var rest := [""] + Split(body, '\n');
    assert rest[1..] == Split(body, '\n');
    LinesJoin(Split(body, '\n'));
    JoinSplit(body, '\n');
  }

  lemma TrimmedBody(body: string)
    ensures Trim("" + ("\n" + body + "\n")) == Trim(body)
  {
    assert "" + ("\n" + body + "\n") == "\n" + body + "\n";
    TrimPadded("\n", body, "\n");
  }

  /**
   * Round trip: a new entry with a single-line title and a body without
   * heading lines parses back to one entry with the trimmed title and body,
   * not done.
   */
  lemma FormatParseRoundTrip(t: LocalTime, title: string, body: string)
    requires ValidTime(t) && NoLineTerminator(title)
    requires Heads(Split(body, '\n')) == []
    ensures Parse(FormatNewEntry(t, title, body)) == [RequestEntry(FormatTimestamp(t), Trim(title), Trim(body), false)]
  {
    var heading := FormatHeading(t, title);
    TimestampShape(t);
    MatchDatedHeading(heading, FormatTimestamp(t), title);
    HeadingSingleLine(heading, FormatTimestamp(t), title);
    var e := RequestEntry(FormatTimestamp(t), Trim(title), "", false);
    assert Head(heading) == Some(e);
    if body == "" {
      ParseHeadingOnly(heading, e);
      assert Trim("") == "";
    } else {
      ParseHeadedBody(heading, e, body);
    }
  }

  /** A request written into a file that does not exist yet is read back as the only entry. */
  lemma NewFileRoundTrip(t: LocalTime, title: string, body: string)
    requires ValidTime(t) && NoLineTerminator(title)
    requires Heads(Split(body, '\n')) == []
    ensures Parse(AppendEntry("", FormatNewEntry(t, title, body))) == [RequestEntry(FormatTimestamp(t), Trim(title), Trim(body), false)]
  {
    var entry := FormatNewEntry(t, title, body);
    FormatParseRoundTrip(t, title, body);
    ParseNewFile(entry);
  }

  /** The fresh file around an entry parses like the entry alone. */
  lemma ParseNewFile(entry: string)
    ensures Parse("# Request\n\n" + entry + "\n") == Parse(entry)
  {
    var content := "# Request\n\n" + entry + "\n";
    assert content == "# Request" + ['\n'] + ("" + ['\n'] + (entry + "\n"));
    SplitConcat("# Request", "" + ['\n'] + (entry + "\n"), '\n');
    SplitConcat("", entry + "\n", '\n');
    assert "" + ['\n'] + (entry + "\n") == [] + ['\n'] + (entry + "\n");
    var own := Split(entry, '\n');
    SplitAppendNewline(entry);
    assert Split(content, '\n') == ["# Request", ""] + (own + [""]);
    PreambleEmpty();
    ScanSkipsPreamble(["# Request", ""], own + [""]);
    ParseTrailingEmptyLine(own);
  }

  /** Splitting a string with a newline appended adds one empty piece. */
  lemma {:induction false} SplitAppendNewline(s: string)
    ensures Split(s + "\n", '\n') == Split(s, '\n') + [""]
    decreases |s|
  {
    if s == [] {
      assert s + "\n" == ['\n'] + [];
      SplitConcat([], [], '\n');
    } else {
      assert (s + "\n")[1..] == s[1..] + "\n";
      SplitAppendNewline(s[1..]);
      var rest := Split(s[1..], '\n');
      if s[0] != '\n' {
        assert (rest + [""])[0] == rest[0];
        assert (rest + [""])[1..] == rest[1..] + [""];
      }
    }
  }

  /** The title line and the blank line of a fresh file leave the scan empty. */
  lemma PreambleEmpty()
    ensures ScanLines(["# Request", ""]) == ScanState([], None)
  {
    assert Head("") == None;
    assert Head("# Request") == None;
    ScanSnoc([], "# Request");
    assert [] + ["# Request"] == ["# Request"];
    ScanSnoc(["# Request"], "");
    assert ["# Request"] + [""] == ["# Request", ""];
  }

  /** Lines before the first heading leave the scan as if they were absent. */
  lemma {:induction false} ScanSkipsPreamble(pre: seq<string>, rest: seq<string>)
    requires ScanLines(pre) == ScanState([], None)
    ensures ScanLines(pre + rest) == ScanLines(rest)
    decreases |rest|
  {
    if rest == [] {
      assert pre + rest == pre;
    } else {
      var init := rest[..|rest| - 1];
      var last := rest[|rest| - 1];
      assert pre + rest == (pre + init) + [last];
      ScanSnoc(pre + init, last);
      ScanSkipsPreamble(pre, init);
      assert init + [last] == rest;
      ScanSnoc(init, last);
    }
  }

  /** A final empty line only adds a newline to the last body, which trimming removes. */
  lemma ParseTrailingEmptyLine(lines: seq<string>)
    ensures TrimBodies(Collected(ScanLines(lines + [""]))) == TrimBodies(Collected(ScanLines(lines)))
  {
    ScanSnoc(lines, "");
    ScanBodyStep(ScanLines(lines), "");
    var st := ScanLines(lines);
    if st.current.Some? {
      var cur := st.current.value;
      assert cur.body + "" + "\n" == cur.body + "\n";
      TrimBodiesNewline(st.entries, cur);
    }
  }

  /** A newline at the end of the last body is lost in trimming. */
  lemma TrimBodiesNewline(es: seq<RequestEntry>, cur: RequestEntry)
    ensures TrimBodies(es + [cur.(body := cur.body + "\n")]) == TrimBodies(es + [cur])
  {
    TrimTrailingSpace(cur.body, "\n");
    TrimBodiesSnoc(es, cur.(body := cur.body + "\n"));
    TrimBodiesSnoc(es, cur);
  }
}
