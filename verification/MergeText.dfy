/**
  The merge on texts: `splitlines(keepends=True)`, the merge of the line lists, and
  `"".join(...)`. Joining is where the line view can be lost: a line without a terminator
  that is no longer last fuses with its successor. The module says exactly when.
 */
module MergeText {
  import opened LineMerge

  // ---------------------------------------------------------------------------------
  // Splitting and joining
  // ---------------------------------------------------------------------------------

  /** The characters `str.splitlines` ends a line at. */
  predicate IsBreak(c: char) {
    c in {'\n', '\r', '\U{000b}', '\U{000c}', '\U{001c}', '\U{001d}', '\U{001e}', '\U{0085}', '\U{2028}', '\U{2029}'}
  }

  /** One past the first line ending of a text; "\r\n" ends one line. */
  function LineEnd(text: string): (k: nat)
    requires text != ""
    ensures 0 < k <= |text|
  {
    if text[0] == '\r' && |text| > 1 && text[1] == '\n' then 2
    else if IsBreak(text[0]) || |text| == 1 then 1
    else 1 + LineEnd(text[1..])
  }

  function SplitLines(text: string): seq<Line> {
    if text == "" then [] else [text[..LineEnd(text)]] + SplitLines(text[LineEnd(text)..])
  }

  function Join(lines: seq<Line>): string {
    if lines == [] then "" else lines[0] + Join(lines[1..])
  }

  /** Splitting loses nothing. */
  lemma {:induction false} JoinSplit(text: string)
    ensures Join(SplitLines(text)) == text
  {
    if text != "" {
      JoinSplit(text[LineEnd(text)..]);
    }
  }

  predicate Terminated(line: Line) {
    line != "" && IsBreak(line[|line| - 1])
  }

  /** A line as splitting produces it: not empty, and its first line ending is its end. */
  predicate IsLine(line: Line) {
    line != "" && LineEnd(line) == |line|
  }

  ghost predicate AllTerminated(lines: seq<Line>) {
    forall i :: 0 <= i < |lines| ==> Terminated(lines[i])
  }

  /** Every line but the last ends in a break. */
  ghost predicate TerminatedButLast(lines: seq<Line>) {
    forall i :: 0 <= i < |lines| - 1 ==> Terminated(lines[i])
  }

  ghost predicate AllLines(lines: seq<Line>) {
    forall i :: 0 <= i < |lines| ==> IsLine(lines[i])
  }

  predicate EndsReturn(line: Line) { line != "" && line[|line| - 1] == '\r' }

  predicate StartsFeed(line: Line) { line != "" && line[0] == '\n' }

  /** No line ending in a carriage return stands before a line starting with a line feed:
      joined, the two would be the one line ending "\r\n". */
  ghost predicate Clean(lines: seq<Line>) {
    forall i :: 0 <= i < |lines| - 1 ==> !(EndsReturn(lines[i]) && StartsFeed(lines[i + 1]))
  }

  lemma {:induction false} LineEndSplits(text: string)
    requires text != ""
    ensures IsLine(text[..LineEnd(text)])
    ensures LineEnd(text) < |text| ==> Terminated(text[..LineEnd(text)])
    ensures LineEnd(text) < |text| ==> !(EndsReturn(text[..LineEnd(text)]) && text[LineEnd(text)] == '\n')
  {
    if text[0] == '\r' && |text| > 1 && text[1] == '\n' {
    } else if !IsBreak(text[0]) && |text| > 1 {
      LineEndSplits(text[1..]);
      assert text[..LineEnd(text)] == [text[0]] + text[1..][..LineEnd(text[1..])];
      assert text[..LineEnd(text)][1..] == text[1..][..LineEnd(text[1..])];
    }
  }

  lemma {:induction false} SplitIsLines(text: string)
    ensures AllLines(SplitLines(text)) && TerminatedButLast(SplitLines(text)) && Clean(SplitLines(text))
  {
    if text != "" {
      var k := LineEnd(text);
      LineEndSplits(text);
      SplitIsLines(text[k..]);
      if k < |text| {
        LineEndSplits(text[k..]);
        assert SplitLines(text)[1] == text[k..][..LineEnd(text[k..])];
      }
    }
  }

  lemma {:induction false} FirstLine(line: Line, rest: string)
    requires IsLine(line)
    requires rest == "" || (Terminated(line) && !(EndsReturn(line) && rest[0] == '\n'))
    ensures LineEnd(line + rest) == |line|
  {
    var text := line + rest;
    assert text[0] == line[0];
    if rest == "" {
      assert text == line;
    } else if IsBreak(line[0]) {
      assert |line| > 1 ==> text[1] == line[1];
    } else {
      assert |line| > 1;
      assert text[1..] == line[1..] + rest;
      FirstLine(line[1..], rest);
    }
  }

  /** A list of lines survives joining and splitting exactly when only its last line may
      lack a terminator and no two neighbours make one line ending. */
  lemma {:induction false} SplitJoin(lines: seq<Line>)
    requires AllLines(lines)
    ensures SplitLines(Join(lines)) == lines <==> TerminatedButLast(lines) && Clean(lines)
  {
    SplitIsLines(Join(lines));
    if TerminatedButLast(lines) && Clean(lines) {
      LinesKept(lines);
    }
  }

  lemma {:induction false} LinesKept(lines: seq<Line>)
    requires AllLines(lines) && TerminatedButLast(lines) && Clean(lines)
    ensures SplitLines(Join(lines)) == lines
  {
    if lines != [] {
      var rest := Join(lines[1..]);
      LinesKept(lines[1..]);
      assert |lines| > 1 ==> rest != "" && rest[0] == lines[1][0];
      FirstLine(lines[0], rest);
      assert (lines[0] + rest)[..|lines[0]|] == lines[0];
      assert (lines[0] + rest)[|lines[0]|..] == rest;
    }
  }

  // ---------------------------------------------------------------------------------
  // Fused lines
  // ---------------------------------------------------------------------------------

  predicate OpenEnd(lines: seq<Line>) {
    lines != [] && !Terminated(lines[|lines| - 1])
  }

  /** `x` rewrites the end of the base without a final terminator, `y` appends after it. */
  predicate Seam(x: Edit, y: Edit, n: int) {
    x.start < x.end == n == y.start && OpenEnd(x.lines)
  }

  /** One side leaves the last line open while the other side appends behind it. */
  predicate Fuses(cs: seq<Edit>, ws: seq<Edit>, n: int) {
    exists c, w :: c in cs && w in ws && (Seam(c, w, n) || Seam(w, c, n))
  }

  ghost predicate EditOk(e: Edit, base: seq<Line>) {
    && (e.end < |base| ==> AllTerminated(e.lines))
    && (e.end == |base| ==> TerminatedButLast(e.lines))
    && (e.start == |base| > 0 ==> Terminated(base[|base| - 1]))
  }

  lemma TerminatedSplit(a: seq<Line>, b: seq<Line>)
    ensures b != [] ==> (TerminatedButLast(a + b) <==> AllTerminated(a) && TerminatedButLast(b))
    ensures b == [] ==> a + b == a
  {
    if b != [] {
      if TerminatedButLast(a + b) {
        forall i | 0 <= i < |a| ensures Terminated(a[i]) { assert (a + b)[i] == a[i]; }
        forall i | 0 <= i < |b| - 1 ensures Terminated(b[i]) { assert (a + b)[|a| + i] == b[i]; }
      }
    }
  }

  /** A script right of `pos` whose outcome is terminated but at the end. */
  ghost predicate TidyScript(base: seq<Line>, pos: int, edits: seq<Edit>) {
    && 0 <= pos && (pos < |base| || pos == 0) && Ordered(edits, pos, |base|) && Separated(edits)
    && (forall x :: x in edits ==> x.IsInsertion() ==> x.lines != [])
    && TerminatedButLast(ApplyFrom(base, pos, edits))
  }

  lemma TidyParts(base: seq<Line>, pos: int, edits: seq<Edit>)
    requires TidyScript(base, pos, edits) && edits != []
    ensures var x, rest := edits[0], edits[1..];
            && pos <= x.start <= x.end <= |base| && Applicable(rest, x.end, |base|)
            && TerminatedButLast(base[pos..x.start] + x.lines + ApplyFrom(base, x.end, rest))
            && (x.end < |base| ==> ApplyFrom(base, x.end, rest) != [])
  {
    if edits[0].end < |base| {
      RestNotEmpty(base, edits[0].end, edits[1..], edits);
    }
  }

  lemma TidyHead(base: seq<Line>, pos: int, edits: seq<Edit>)
    requires TidyScript(base, pos, edits) && edits != []
    ensures EditOk(edits[0], base)
    ensures edits[0].end < |base| ==> TerminatedButLast(ApplyFrom(base, edits[0].end, edits[1..]))
  {
    TidyParts(base, pos, edits);
    assert edits[0] in edits;
    assert edits[0].IsInsertion() ==> edits[0].lines != [];
    hide TidyScript, ApplyFrom, Applicable;
    HeadOk(base, pos, edits[0], ApplyFrom(base, edits[0].end, edits[1..]));
  }

  lemma HeadOk(base: seq<Line>, pos: int, x: Edit, rest: seq<Line>)
    requires 0 <= pos <= x.start <= x.end <= |base| && (pos < |base| || pos == 0)
    requires TerminatedButLast(base[pos..x.start] + x.lines + rest)
    requires x.end < |base| ==> rest != []
    requires x.IsInsertion() ==> x.lines != []
    ensures EditOk(x, base) && (x.end < |base| ==> TerminatedButLast(rest))
  {
    var front := base[pos..x.start];
    assert front + x.lines + rest == front + (x.lines + rest);
    TerminatedSplit(front, x.lines + rest);
    TerminatedSplit(x.lines, rest);
    if x.start == |base| > 0 {
      assert front[|front| - 1] == base[|base| - 1];
    }
  }

  lemma TidyTail(base: seq<Line>, pos: int, edits: seq<Edit>)
    requires TidyScript(base, pos, edits) && edits != [] && edits[0].end < |base|
    requires TerminatedButLast(ApplyFrom(base, edits[0].end, edits[1..]))
    ensures TidyScript(base, edits[0].end, edits[1..])
  {
    hide ApplyFrom, TerminatedButLast;
    var rest := edits[1..];
    assert edits == [edits[0]] + rest;
    assert forall i :: 0 <= i < |rest| ==> rest[i] == edits[i + 1];
  }

  lemma LastEdit(base: seq<Line>, pos: int, edits: seq<Edit>)
    requires TidyScript(base, pos, edits) && edits != []
    ensures |edits| > 1 ==> edits[0].end < |base|
  {
    hide ApplyFrom, TerminatedButLast;
    if |edits| > 1 {
      var rest := edits[1..];
      assert edits[0].end < edits[1].start && rest[0] == edits[1];
      assert Applicable(rest, edits[0].end, |base|);
    }
  }

  /** The edits of a side whose own text is properly terminated are closed but at the end. */
  lemma {:induction false} ScriptEdits(base: seq<Line>, pos: int, edits: seq<Edit>, e: Edit)
    requires TidyScript(base, pos, edits) && e in edits
    ensures EditOk(e, base)
    decreases edits
  {
    TidyParts(base, pos, edits);
    TidyHead(base, pos, edits);
    hide *;
    if edits[0].end < |base| {
      TidyTail(base, pos, edits);
      if e != edits[0] {
        assert edits == [edits[0]] + edits[1..];
        ScriptEdits(base, edits[0].end, edits[1..], e);
      }
    } else {
      LastEdit(base, pos, edits);
      assert edits == [edits[0]];
    }
  }

  lemma RestNotEmpty(base: seq<Line>, pos: int, rest: seq<Edit>, edits: seq<Edit>)
    requires edits != [] && rest == edits[1..] && pos == edits[0].end && 0 <= pos < |base|
    requires Separated(edits) && Applicable(rest, pos, |base|)
    ensures ApplyFrom(base, pos, rest) != []
  {
    if rest != [] {
      assert edits[0].end < edits[1].start;
    }
  }

  lemma MergedParts(base: seq<Line>, pos: int, u: seq<Edit>)
    requires 0 <= pos && Applicable(u, pos, |base|) && u != []
    ensures var x := u[0];
            var tail := ApplyFrom(base, x.end, u[1..]);
            && Applicable(u, x.start, |base|)
            && ApplyFrom(base, pos, u) == base[pos..x.start] + (x.lines + tail)
            && ApplyFrom(base, x.start, u) == x.lines + tail
  {
    var x := u[0];
    assert base[x.start..x.start] + x.lines == x.lines;
  }

  /** The merged lines keep their terminators exactly when there is no seam. */
  lemma {:induction false} MergedTerminated(base: seq<Line>, pos: int, u: seq<Edit>)
    requires 0 <= pos && Ordered(u, pos, |base|) && TerminatedButLast(base)
    requires forall e :: e in u ==> EditOk(e, base) && (e.IsInsertion() ==> e.lines != [])
    ensures TerminatedButLast(ApplyFrom(base, pos, u)) <==> !(exists x, y :: x in u && y in u && Seam(x, y, |base|))
    decreases u
  {
    if u != [] {
      var x, n := u[0], |base|;
      var front, rest := base[pos..x.start], ApplyFrom(base, x.end, u[1..]);
      assert x in u && EditOk(x, base);
      MergedParts(base, pos, u);
      TerminatedSplit(front, x.lines + rest);
      TerminatedSplit(x.lines, rest);
      if x.end < n {
        MergedTerminated(base, x.end, u[1..]);
        SeamsBehind(u, n);
      } else if |u| == 1 {
        assert u == [x];
        assert x.start < n ==> AllTerminated(front);
      } else {
        LastTwo(base, pos, u);
        assert u[1] in u && Seam(x, u[1], n) == OpenEnd(x.lines);
      }
    }
  }

  lemma SeamsBehind(u: seq<Edit>, n: int)
    requires u != [] && u[0].end < n && u[0].start <= u[0].end
    ensures (exists x, y :: x in u && y in u && Seam(x, y, n)) ==
            exists x, y :: x in u[1..] && y in u[1..] && Seam(x, y, n)
  {
    assert u == [u[0]] + u[1..];
    assert forall y :: y in u <==> y == u[0] || y in u[1..];
  }

  /** An edit that reaches the end leaves room for one appending edit only. */
  lemma LastTwo(base: seq<Line>, pos: int, u: seq<Edit>)
    requires 0 <= pos && Ordered(u, pos, |base|) && |u| > 1 && u[0].end == |base|
    ensures u == [u[0], u[1]] && u[1].start == u[1].end == |base| && u[0].start < |base|
    ensures ApplyFrom(base, |base|, u[1..]) == u[1].lines
  {
    var n, y := |base|, u[1];
    assert y in u;
    OrderedTail(u, pos, n, y);
    if |u| > 2 {
      OrderedTail(u, pos, n, u[2]);
      OrderedKeys(u, pos, n, 1, 2);
    }
    assert u[1..] == [y] && [y][1..] == [];
    assert ApplyFrom(base, n, [y]) == base[n..n] + y.lines + ApplyFrom(base, n, []);
  }

  /** In the merge of two properly terminated sides a line loses its successor's start
      exactly when one side rewrites the end of the base without a terminator and the other
      appends behind it. */
  lemma FusedExactly(base: seq<Line>, current: seq<Line>, worker: seq<Line>, cs: seq<Edit>, ws: seq<Edit>)
    requires IsScript(base, current, cs) && IsScript(base, worker, ws) && Compatible(cs, ws)
    requires TerminatedButLast(base) && TerminatedButLast(current) && TerminatedButLast(worker)
    ensures Ordered(Interleave(cs, ws), 0, |base|)
    ensures TerminatedButLast(Apply(base, Interleave(cs, ws))) <==> !Fuses(cs, ws, |base|)
  {
    var u, n := Interleave(cs, ws), |base|;
    InterleaveOrdered(cs, ws, 0, n);
    forall e | e in u ensures EditOk(e, base) && (e.IsInsertion() ==> e.lines != []) {
      InterleaveElements(cs, ws, e);
      if e in cs { ScriptEdits(base, 0, cs, e); } else { ScriptEdits(base, 0, ws, e); }
    }
    MergedTerminated(base, 0, u);
    forall x, y ensures x in u && y in u && Seam(x, y, n) <==> SeamAcross(cs, ws, x, y, n) {
      InterleaveElements(cs, ws, x);
      InterleaveElements(cs, ws, y);
      if x in cs && y in cs && Seam(x, y, n) { NoSeamWithin(cs, x, y, n); }
      if x in ws && y in ws && Seam(x, y, n) { NoSeamWithin(ws, x, y, n); }
    }
    if Fuses(cs, ws, n) {
      var c, w :| c in cs && w in ws && (Seam(c, w, n) || Seam(w, c, n));
      if Seam(c, w, n) { assert SeamAcross(cs, ws, c, w, n); } else { assert SeamAcross(cs, ws, w, c, n); }
    }
  }

  ghost predicate SeamAcross(cs: seq<Edit>, ws: seq<Edit>, x: Edit, y: Edit, n: int) {
    Seam(x, y, n) && ((x in cs && y in ws) || (x in ws && y in cs))
  }

  /** The two edits of a seam cannot belong to one side: they touch. */
  lemma NoSeamWithin(edits: seq<Edit>, x: Edit, y: Edit, n: int)
    requires Ordered(edits, 0, n) && Separated(edits) && x in edits && y in edits
    ensures !Seam(x, y, n)
  {
    var i :| 0 <= i < |edits| && edits[i] == x;
    var j :| 0 <= j < |edits| && edits[j] == y;
    if j < i { OrderedKeys(edits, 0, n, j, i); }
    if i < j { SeparatedLater(edits, n, i, j); }
  }

  lemma SeparatedLater(edits: seq<Edit>, n: int, i: nat, j: nat)
    requires Ordered(edits, 0, n) && Separated(edits) && i < j < |edits|
    ensures edits[i].end < edits[j].start
  {
    assert edits[i].end < edits[i + 1].start;
    if i + 1 < j { OrderedKeys(edits, 0, n, i + 1, j); }
  }

  /** `_merge_disjoint_text` on texts. */
  method MergeDisjointText(base: string, current: string, worker: string, cs: seq<Edit>, ws: seq<Edit>)
    returns (conflict: bool, text: string)
    requires IsScript(SplitLines(base), SplitLines(current), cs)
    requires IsScript(SplitLines(base), SplitLines(worker), ws)
    ensures conflict <==> !Compatible(cs, ws)
    ensures !conflict ==> Ordered(Interleave(cs, ws), 0, |SplitLines(base)|)
    ensures !conflict ==> text == Join(Apply(SplitLines(base), Interleave(cs, ws)))
    ensures !conflict && cs == [] ==> text == worker
    ensures !conflict && ws == [] ==> text == current
  {
    var r := MergeDisjoint(SplitLines(base), cs, ws);
    conflict, text := r.Overlapping?, "";
    if r.Merged? {
      text := Join(r.lines);
      JoinSplit(worker);
      JoinSplit(current);
      assert cs == [] ==> Interleave(cs, ws) == ws;
      assert ws == [] ==> Interleave(cs, ws) == cs;
    }
  }

  // ---------------------------------------------------------------------------------
  // Line endings that meet
  // ---------------------------------------------------------------------------------

  /** What the merge puts at base position `pos` starts with a line feed: the base line
      there, or the first line of the edits there, deletions skipped. */
  ghost predicate FeedNext(base: seq<Line>, pos: int, u: seq<Edit>)
    requires 0 <= pos && Applicable(u, pos, |base|)
    decreases u
  {
    if u == [] || pos < u[0].start then pos < |base| && StartsFeed(base[pos])
    else if u[0].lines != [] then StartsFeed(u[0].lines[0])
    else FeedNext(base, u[0].end, u[1..])
  }

  /** Some edit brings a carriage return and a line feed together: a kept base line before
      it, or its own last line, ends in the one and the other comes next. */
  ghost predicate CrSeam(base: seq<Line>, pos: int, u: seq<Edit>)
    requires 0 <= pos && Applicable(u, pos, |base|)
    decreases u
  {
    u != [] &&
    var x := u[0];
    || (pos < x.start && EndsReturn(base[x.start - 1]) && FeedNext(base, x.start, u))
    || (x.lines != [] && EndsReturn(x.lines[|x.lines| - 1]) && FeedNext(base, x.end, u[1..]))
    || CrSeam(base, x.end, u[1..])
  }

  ghost predicate MeetingEnds(a: seq<Line>, b: seq<Line>) {
    a != [] && b != [] && EndsReturn(a[|a| - 1]) && StartsFeed(b[0])
  }

  lemma CleanSplit(a: seq<Line>, b: seq<Line>)
    ensures Clean(a + b) <==> Clean(a) && Clean(b) && !MeetingEnds(a, b)
  {
    var s := a + b;
    if Clean(s) {
      forall i | 0 <= i < |a| - 1 ensures !(EndsReturn(a[i]) && StartsFeed(a[i + 1])) {
        assert s[i] == a[i] && s[i + 1] == a[i + 1];
      }
      forall i | 0 <= i < |b| - 1 ensures !(EndsReturn(b[i]) && StartsFeed(b[i + 1])) {
        assert s[|a| + i] == b[i] && s[|a| + i + 1] == b[i + 1];
      }
      assert a != [] && b != [] ==> s[|a| - 1] == a[|a| - 1] && s[|a|] == b[0];
    }
  }

  lemma {:induction false} FirstMergedLine(base: seq<Line>, pos: int, u: seq<Edit>)
    requires 0 <= pos && Applicable(u, pos, |base|)
    ensures var lines := ApplyFrom(base, pos, u);
            lines != [] && StartsFeed(lines[0]) <==> FeedNext(base, pos, u)
    decreases u
  {
    if u != [] && pos == u[0].start && u[0].lines == [] {
      FirstMergedLine(base, u[0].end, u[1..]);
      assert base[pos..pos] + [] + ApplyFrom(base, u[0].end, u[1..]) == ApplyFrom(base, u[0].end, u[1..]);
    }
  }

  lemma CleanPart(lines: seq<Line>, lo: nat, hi: nat)
    requires Clean(lines) && lo <= hi <= |lines|
    ensures Clean(lines[lo..hi])
  {
  }

  /** Inside a kept stretch of the base and inside an edit nothing new can meet, so the
      edits' borders decide. */
  lemma {:induction false} MergedClean(base: seq<Line>, pos: int, u: seq<Edit>)
    requires 0 <= pos && Applicable(u, pos, |base|) && Clean(base)
    requires forall e :: e in u ==> Clean(e.lines)
    ensures Clean(ApplyFrom(base, pos, u)) <==> !CrSeam(base, pos, u)
    decreases u
  {
    if u == [] {
      CleanPart(base, pos, |base|);
    } else {
      var x, rest := u[0], u[1..];
      var front, tail := base[pos..x.start], ApplyFrom(base, x.end, rest);
      assert u == [x] + rest;
      assert Clean(x.lines) by { assert x in u; }
      MergedClean(base, x.end, rest);
      hide ApplyFrom, Clean, FeedNext, EndsReturn, StartsFeed;
      MergedParts(base, pos, u);
      CleanPart(base, pos, x.start);
      FirstMergedLine(base, x.end, rest);
      FirstMergedLine(base, x.start, u);
      CleanSplit(front, x.lines + tail);
      CleanSplit(x.lines, tail);
    }
  }

  /** The lines of an edit stand together in the side that made it. */
  lemma {:induction false} EditClean(base: seq<Line>, pos: int, u: seq<Edit>, e: Edit)
    requires 0 <= pos && Applicable(u, pos, |base|) && e in u
    requires Clean(ApplyFrom(base, pos, u))
    ensures Clean(e.lines)
    decreases u
  {
    var x := u[0];
    var front, rest := base[pos..x.start], ApplyFrom(base, x.end, u[1..]);
    CleanSplit(front + x.lines, rest);
    CleanSplit(front, x.lines);
    if e != x {
      EditClean(base, x.end, u[1..], e);
    }
  }

  lemma {:induction false} NoReturns(base: seq<Line>, pos: int, u: seq<Edit>)
    requires 0 <= pos && Applicable(u, pos, |base|)
    requires forall line :: line in base ==> !EndsReturn(line)
    requires forall e, line :: e in u && line in e.lines ==> !EndsReturn(line)
    ensures !CrSeam(base, pos, u)
    decreases u
  {
    if u != [] {
      assert u == [u[0]] + u[1..];
      NoReturns(base, u[0].end, u[1..]);
    }
  }

  /** For all texts: splitting the merged text gives back the spliced lines exactly when no
      open line gets a successor and no carriage return meets a line feed. */
  lemma MergedTextLines(base: string, current: string, worker: string, cs: seq<Edit>, ws: seq<Edit>)
    requires IsScript(SplitLines(base), SplitLines(current), cs)
    requires IsScript(SplitLines(base), SplitLines(worker), ws)
    requires Compatible(cs, ws)
    ensures
      var lines, u := SplitLines(base), Interleave(cs, ws);
      && Ordered(u, 0, |lines|)
      && var merged := Apply(lines, u);
         SplitLines(Join(merged)) == merged <==> !Fuses(cs, ws, |lines|) && !CrSeam(lines, 0, u)
  {
    var b, c, w := SplitLines(base), SplitLines(current), SplitLines(worker);
    var u := Interleave(cs, ws);
    SplitIsLines(base);
    SplitIsLines(current);
    SplitIsLines(worker);
    FusedExactly(b, c, w, cs, ws);
    UnionClean(b, c, w, cs, ws);
    var merged := Apply(b, u);
    hide *;
    assert AllLines(merged) by { UnionLines(b, c, w, cs, ws); }
    SplitJoin(merged);
  }

  lemma UnionClean(base: seq<Line>, current: seq<Line>, worker: seq<Line>, cs: seq<Edit>, ws: seq<Edit>)
    requires IsScript(base, current, cs) && IsScript(base, worker, ws) && Compatible(cs, ws)
    requires Ordered(Interleave(cs, ws), 0, |base|)
    requires Clean(base) && Clean(current) && Clean(worker)
    ensures Clean(Apply(base, Interleave(cs, ws))) <==> !CrSeam(base, 0, Interleave(cs, ws))
  {
    var u := Interleave(cs, ws);
    forall e | e in u ensures Clean(e.lines) {
      InterleaveElements(cs, ws, e);
      if e in cs { EditClean(base, 0, cs, e); } else { EditClean(base, 0, ws, e); }
    }
    MergedClean(base, 0, u);
  }

  lemma UnionLines(base: seq<Line>, current: seq<Line>, worker: seq<Line>, cs: seq<Edit>, ws: seq<Edit>)
    requires IsScript(base, current, cs) && IsScript(base, worker, ws) && Compatible(cs, ws)
    requires Ordered(Interleave(cs, ws), 0, |base|)
    requires AllLines(base) && AllLines(current) && AllLines(worker)
    ensures AllLines(Apply(base, Interleave(cs, ws)))
  {
    var merged := Apply(base, Interleave(cs, ws));
    forall i | 0 <= i < |merged| ensures IsLine(merged[i]) {
      MergedFrom(base, current, worker, cs, ws, merged[i]);
    }
  }

  /** A proposal's base and worker texts have no carriage returns left; a seam then needs one
      in the current text. */
  lemma CrSeamNeedsReturn(base: string, current: string, worker: string, cs: seq<Edit>, ws: seq<Edit>)
    requires IsScript(SplitLines(base), SplitLines(current), cs)
    requires IsScript(SplitLines(base), SplitLines(worker), ws)
    requires Compatible(cs, ws)
    requires '\r' !in base && '\r' !in worker && '\r' !in current
    ensures Ordered(Interleave(cs, ws), 0, |SplitLines(base)|)
    ensures !CrSeam(SplitLines(base), 0, Interleave(cs, ws))
  {
    var b, u := SplitLines(base), Interleave(cs, ws);
    InterleaveOrdered(cs, ws, 0, |b|);
    forall line | line in b ensures !EndsReturn(line) { SplitNoReturn(base, line); }
    forall e, line | e in u && line in e.lines ensures !EndsReturn(line) {
      InterleaveElements(cs, ws, e);
      if e in cs {
        EditLinesIn(b, 0, cs, e, line);
        SplitNoReturn(current, line);
      } else {
        EditLinesIn(b, 0, ws, e, line);
        SplitNoReturn(worker, line);
      }
    }
    NoReturns(b, 0, u);
  }

  lemma {:induction false} SplitNoReturn(text: string, line: Line)
    requires '\r' !in text && line in SplitLines(text)
    ensures !EndsReturn(line)
  {
    if line == text[..LineEnd(text)] {
      assert line[|line| - 1] == text[|line| - 1];
    } else {
      SplitNoReturn(text[LineEnd(text)..], line);
    }
  }

  /** Every merged line is a line of the base or was written by one of the sides. */
  lemma MergedFrom(base: seq<Line>, current: seq<Line>, worker: seq<Line>, cs: seq<Edit>, ws: seq<Edit>, line: Line)
    requires IsScript(base, current, cs) && IsScript(base, worker, ws) && Compatible(cs, ws)
    requires Ordered(Interleave(cs, ws), 0, |base|) && line in Apply(base, Interleave(cs, ws))
    ensures line in base || line in current || line in worker
  {
    LineOrigin(base, 0, Interleave(cs, ws), line);
    if line !in base {
      var e :| e in Interleave(cs, ws) && line in e.lines;
      InterleaveElements(cs, ws, e);
      if e in cs { EditLinesIn(base, 0, cs, e, line); } else { EditLinesIn(base, 0, ws, e, line); }
    }
  }

  lemma {:induction false} LineOrigin(base: seq<Line>, pos: int, u: seq<Edit>, line: Line)
    requires 0 <= pos && Applicable(u, pos, |base|) && line in ApplyFrom(base, pos, u)
    ensures line in base || exists e :: e in u && line in e.lines
    decreases u
  {
    if u != [] {
      if line in u[0].lines {
        assert u[0] in u;
      } else if line in ApplyFrom(base, u[0].end, u[1..]) {
        LineOrigin(base, u[0].end, u[1..], line);
        if line !in base {
          var e :| e in u[1..] && line in e.lines;
          assert e in u;
        }
      }
    }
  }

  lemma {:induction false} EditLinesIn(base: seq<Line>, pos: int, u: seq<Edit>, e: Edit, line: Line)
    requires 0 <= pos && Applicable(u, pos, |base|) && e in u && line in e.lines
    ensures line in ApplyFrom(base, pos, u)
    decreases u
  {
    if e != u[0] {
      EditLinesIn(base, u[0].end, u[1..], e, line);
    }
  }

  lemma OneLine(line: Line)
    requires IsLine(line)
    ensures SplitLines(line) == [line] && Join([line]) == line
  {
    assert line[|line|..] == "";
    assert line + "" == line;
  }

  lemma TwoLines(first: Line, second: Line)
    requires IsLine(first) && Terminated(first) && IsLine(second)
    requires !(EndsReturn(first) && StartsFeed(second))
    ensures SplitLines(first + second) == [first, second]
  {
    LinesKept([first, second]);
    assert [first, second][1..] == [second] && Join([second]) == second + Join([]);
    assert second + "" == second;
  }

  lemma ApplyOne(base: seq<Line>, e: Edit)
    requires 0 <= e.start <= e.end <= |base|
    ensures Ordered([e], 0, |base|) && Apply(base, [e]) == base[..e.start] + e.lines + base[e.end..]
  {
    assert [e][1..] == [] && base[0..e.start] == base[..e.start];
    assert Apply(base, [e]) == base[0..e.start] + e.lines + ApplyFrom(base, e.end, []);
  }

  lemma ApplyTwo(base: seq<Line>, e: Edit, f: Edit)
    requires 0 <= e.start <= e.end <= f.start <= f.end <= |base| && KeyLess(e, f)
    ensures Ordered([e, f], 0, |base|)
    ensures Apply(base, [e, f]) == base[..e.start] + e.lines + (base[e.end..f.start] + f.lines + base[f.end..])
  {
    assert [e, f][1..] == [f] && [f][1..] == [];
    assert ApplyFrom(base, e.end, [f]) == base[e.end..f.start] + f.lines + ApplyFrom(base, f.end, []);
  }

  /** The smallest case: main drops the final newline of the only line, the worker appends a
      second line. Nothing overlaps, and the merge is one line nobody wrote. */
  lemma FusedExample()
    ensures
      var cs, ws := [Edit(0, 1, ["y"])], [Edit(1, 1, ["z\n"])];
      && IsScript(SplitLines("x\n"), SplitLines("y"), cs)
      && IsScript(SplitLines("x\n"), SplitLines("x\nz\n"), ws)
      && Compatible(cs, ws) && Ordered(Interleave(cs, ws), 0, 1)
      && Join(Apply(["x\n"], Interleave(cs, ws))) == "yz\n"
      && SplitLines("yz\n") == ["yz\n"]
  {
    hide SplitLines, ApplyFrom;
    var c, w := Edit(0, 1, ["y"]), Edit(1, 1, ["z\n"]);
    OneLine("x\n");
    OneLine("y");
    OneLine("yz\n");
    TwoLines("x\n", "z\n");
    assert "x\n" + "z\n" == "x\nz\n" && "y" + "z\n" == "yz\n";
    ApplyOne(["x\n"], c);
    ApplyOne(["x\n"], w);
    ApplyTwo(["x\n"], c, w);
    assert Interleave([c], [w]) == [c, w];
    OneLine("z\n");
    assert Join(["y", "z\n"]) == "y" + Join(["y", "z\n"][1..]) && ["y", "z\n"][1..] == ["z\n"];
  }

  /** The smallest case with a carriage return: main has "\r" in the first line and the
      worker deletes the line that kept it from an empty one. Every line of the merge has a
      terminator, and yet its text has one line less. */
  lemma ReturnExample()
    ensures
      var cs, ws := [Edit(0, 1, ["x\r"])], [Edit(1, 2, [])];
      var base := ["x\n", "q\n", "\n"];
      && IsScript(SplitLines("x\nq\n\n"), SplitLines("x\rq\n\n"), cs)
      && IsScript(SplitLines("x\nq\n\n"), SplitLines("x\n\n"), ws)
      && Compatible(cs, ws) && !Fuses(cs, ws, 3)
      && Ordered(Interleave(cs, ws), 0, 3) && CrSeam(base, 0, Interleave(cs, ws))
      && Apply(base, Interleave(cs, ws)) == ["x\r", "\n"]
      && SplitLines(Join(["x\r", "\n"])) == ["x\r\n"]
  {
    ReturnTexts();
    ReturnLists();
  }

  lemma ReturnTexts()
    ensures SplitLines("x\nq\n\n") == ["x\n", "q\n", "\n"]
    ensures SplitLines("x\rq\n\n") == ["x\r", "q\n", "\n"]
    ensures SplitLines("x\n\n") == ["x\n", "\n"]
    ensures SplitLines(Join(["x\r", "\n"])) == ["x\r\n"]
  {
    ReturnLines();
    ThreeLines("x\n", "q\n", "\n");
    ThreeLines("x\r", "q\n", "\n");
    TwoLines("x\n", "\n");
    OneLine("x\r\n");
    JoinTwo("x\r", "\n");
    hide *;
    assert "x\n" + "q\n" + "\n" == "x\nq\n\n";
    assert "x\r" + "q\n" + "\n" == "x\rq\n\n";
    assert "x\n" + "\n" == "x\n\n";
    assert "x\r" + "\n" == "x\r\n";
  }

  lemma ReturnLines()
    ensures IsLine("x\n") && IsLine("x\r") && IsLine("q\n") && IsLine("\n") && IsLine("x\r\n")
  {
    assert "x\n"[1..] == "\n" && "q\n"[1..] == "\n" && "x\r"[1..] == "\r" && "x\r\n"[1..] == "\r\n";
  }

  lemma JoinTwo(first: Line, second: Line)
    ensures Join([first, second]) == first + second
  {
    assert [first, second][1..] == [second] && Join([second]) == second + Join([]);
    assert second + "" == second;
  }

  lemma ReturnLists()
    ensures
      var cs, ws := [Edit(0, 1, ["x\r"])], [Edit(1, 2, [])];
      var base := ["x\n", "q\n", "\n"];
      && IsScript(base, ["x\r", "q\n", "\n"], cs) && IsScript(base, ["x\n", "\n"], ws)
      && Compatible(cs, ws) && !Fuses(cs, ws, 3)
      && Ordered(Interleave(cs, ws), 0, 3) && CrSeam(base, 0, Interleave(cs, ws))
      && Apply(base, Interleave(cs, ws)) == ["x\r", "\n"]
  {
    hide ApplyFrom, Fuses;
    var c, w := Edit(0, 1, ["x\r"]), Edit(1, 2, []);
    var base := ["x\n", "q\n", "\n"];
    ApplyOne(base, c);
    ApplyOne(base, w);
    ApplyTwo(base, c, w);
    NoFuse(c, w, 3);
    assert Interleave([c], [w]) == [c, w];
    assert [c, w][1..] == [w] && [w][1..] == [];
    assert FeedNext(base, 2, []);
    assert FeedNext(base, 1, [w]);
  }

  lemma NoFuse(c: Edit, w: Edit, n: int)
    requires !Seam(c, w, n) && !Seam(w, c, n)
    ensures !Fuses([c], [w], n)
  {
  }

  lemma ThreeLines(first: Line, second: Line, third: Line)
    requires IsLine(first) && IsLine(second) && IsLine(third) && Terminated(first) && Terminated(second)
    requires !(EndsReturn(first) && StartsFeed(second)) && !(EndsReturn(second) && StartsFeed(third))
    ensures SplitLines(first + second + third) == [first, second, third]
  {
    JoinThree(first, second, third);
    LinesKept([first, second, third]);
  }

  lemma JoinThree(first: Line, second: Line, third: Line)
    ensures Join([first, second, third]) == first + second + third
  {
    assert [first, second, third][1..] == [second, third];
    JoinTwo(second, third);
    assert first + (second + third) == first + second + third;
  }
}
