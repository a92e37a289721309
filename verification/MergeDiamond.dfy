/**
  What the spliced merge means to the two sides: the diamond theorem, its unit and symmetry
  laws, and the fate of the base lines neither side touched.
 */
module MergeDiamond {
  import opened LineMerge

  /** How far the edits of `cs` left of `e` move everything at `e`. */
  ghost function Growth(cs: seq<Edit>, e: Edit): int {
    if cs == [] then 0
    else (if KeyLess(cs[0], e) then cs[0].Gain() else 0) + Growth(cs[1..], e)
  }

  /** The edits `ws`, written against the base, rewritten against base-with-`cs`: each is
      moved by the growth left of it, and an edit both sides made is dropped. */
  ghost function RebaseBy(ws: seq<Edit>, cs: seq<Edit>, d: int): seq<Edit> {
    if ws == [] then []
    else (if ws[0] in cs then [] else [ws[0].Shifted(d + Growth(cs, ws[0]))]) + RebaseBy(ws[1..], cs, d)
  }

  ghost function Rebase(ws: seq<Edit>, cs: seq<Edit>): seq<Edit> {
    RebaseBy(ws, cs, 0)
  }

  /** Edits at or right of `e` do not move it. */
  lemma {:induction false} GrowthFromRight(cs: seq<Edit>, e: Edit)
    requires Ascending(cs)
    requires cs != [] ==> !KeyLess(cs[0], e)
    ensures Growth(cs, e) == 0
  {
    if |cs| > 1 {
      GrowthFromRight(cs[1..], e);
    }
  }

  /** Passing the leftmost edit of `cs`: it moves every edit of `ws` by its gain. */
  lemma {:induction false} RebasePast(ws: seq<Edit>, cs: seq<Edit>, d: int)
    requires cs != []
    requires forall w :: w in ws ==> KeyLess(cs[0], w)
    ensures RebaseBy(ws, cs, d) == RebaseBy(ws, cs[1..], d + cs[0].Gain())
  {
    if ws != [] {
      assert ws[0] in ws && ws[0] != cs[0];
      assert cs == [cs[0]] + cs[1..];
      assert ws[0] in cs <==> ws[0] in cs[1..];
      RebasePast(ws[1..], cs, d);
    }
  }

  /** The scripts can be walked side by side: at every step the heads are equal or one of
      them lies strictly to the left of the other. */
  ghost predicate Walkable(cs: seq<Edit>, ws: seq<Edit>, pos: int, n: int)
    decreases |cs| + |ws|
  {
    && Ordered(cs, pos, n) && Ordered(ws, pos, n)
    && (cs == [] || ws == [] ||
        if cs[0] == ws[0] then Walkable(cs[1..], ws[1..], cs[0].end, n)
        else if Before(cs[0], ws[0]) then Walkable(cs[1..], ws, cs[0].end, n)
        else Before(ws[0], cs[0]) && Walkable(cs, ws[1..], ws[0].end, n))
  }

  lemma {:induction false} CompatibleWalkable(cs: seq<Edit>, ws: seq<Edit>, pos: int, n: int)
    requires Ordered(cs, pos, n) && Ordered(ws, pos, n) && Compatible(cs, ws)
    ensures Walkable(cs, ws, pos, n)
    decreases |cs| + |ws|
  {
    if cs != [] && ws != [] {
      HeadsComparable(cs, ws, pos, pos, n);
      if cs[0] == ws[0] {
        CompatibleWalkable(cs[1..], ws[1..], cs[0].end, n);
      } else if Before(cs[0], ws[0]) {
        OrderedFrom(ws, pos, cs[0].end, n);
        CompatibleWalkable(cs[1..], ws, cs[0].end, n);
      } else {
        OrderedFrom(cs, pos, ws[0].end, n);
        CompatibleWalkable(cs, ws[1..], ws[0].end, n);
      }
    }
  }

  lemma {:induction false} KeysAbove(edits: seq<Edit>, pos: int, n: int, e: Edit)
    requires Ordered(edits, pos, n)
    requires edits != [] ==> KeyLess(e, edits[0])
    ensures forall x :: x in edits ==> KeyLess(e, x)
  {
    forall x | x in edits ensures KeyLess(e, x) {
      OrderedTail(edits, pos, n, x);
    }
  }

  // ---------------------------------------------------------------------------------
  // The diamond
  // ---------------------------------------------------------------------------------

  /** Right of one cut: the scripts are walkable and `cur` is base-with-`cs` there. */
  ghost predicate CutOk(base: seq<Line>, cur: seq<Line>, pos: int, d: int, cs: seq<Edit>, ws: seq<Edit>) {
    && Walkable(cs, ws, pos, |base|)
    && 0 <= pos && 0 <= pos + d <= |cur| && cur[pos + d..] == ApplyFrom(base, pos, cs)
  }

  ghost predicate DiamondHolds(base: seq<Line>, cur: seq<Line>, pos: int, d: int, cs: seq<Edit>, ws: seq<Edit>) {
    var u := Interleave(cs, ws);
    var r := RebaseBy(ws, cs, d);
    && 0 <= pos && Applicable(u, pos, |base|)
    && 0 <= pos + d && Applicable(r, pos + d, |cur|)
    && ApplyFrom(cur, pos + d, r) == ApplyFrom(base, pos, u)
  }

  lemma WorkerHeadCut(base: seq<Line>, cur: seq<Line>, pos: int, d: int, cs: seq<Edit>, w: Edit)
    requires Applicable(cs, pos, |base|) && 0 <= pos <= w.start <= w.end <= |base|
    requires 0 <= pos + d <= |cur| && cur[pos + d..] == ApplyFrom(base, pos, cs)
    requires Applicable(cs, w.end, |base|)
    ensures w.end + d <= |cur| && cur[w.end + d..] == ApplyFrom(base, w.end, cs)
    ensures cur[pos + d..w.start + d] == base[pos..w.start]
  {
    ApplyFromEarlier(base, w.end, pos, cs);
    var tail := cur[pos + d..];
    assert tail == base[pos..w.end] + ApplyFrom(base, w.end, cs);
    assert cur[w.end + d..] == tail[w.end - pos..];
    assert cur[pos + d..w.start + d] == tail[..w.start - pos];
    assert tail[..w.start - pos] == base[pos..w.end][..w.start - pos];
  }

  lemma CurrentHeadCut(base: seq<Line>, cur: seq<Line>, pos: int, d: int, cs: seq<Edit>)
    requires cs != [] && 0 <= pos && Applicable(cs, pos, |base|)
    requires 0 <= pos + d <= |cur| && cur[pos + d..] == ApplyFrom(base, pos, cs)
    ensures
      var c := cs[0];
      var d' := d + c.Gain();
      && pos + d <= c.end + d' <= |cur|
      && cur[c.end + d'..] == ApplyFrom(base, c.end, cs[1..])
      && cur[pos + d..c.end + d'] == base[pos..c.start] + c.lines
  {
    var c := cs[0];
    var front := base[pos..c.start] + c.lines;
    var tail := cur[pos + d..];
    assert tail == front + ApplyFrom(base, c.end, cs[1..]);
    assert c.end + d + c.Gain() == pos + d + |front|;
    assert cur[pos + d + |front|..] == tail[|front|..];
    assert cur[pos + d..pos + d + |front|] == tail[..|front|];
  }

  /** The worker's leftmost edit comes first: it lands at its own offset moved by `d`. */
  lemma DiamondWorkerFirst(base: seq<Line>, cur: seq<Line>, pos: int, d: int, cs: seq<Edit>, ws: seq<Edit>)
    requires CutOk(base, cur, pos, d, cs, ws) && ws != []
    requires cs == [] || (cs[0] != ws[0] && !Before(cs[0], ws[0]))
    requires CutOk(base, cur, ws[0].end, d, cs, ws[1..]) ==> DiamondHolds(base, cur, ws[0].end, d, cs, ws[1..])
    ensures DiamondHolds(base, cur, pos, d, cs, ws)
  {
    var w := ws[0];
    if cs != [] {
      OrderedFrom(cs, pos, w.end, |base|);
      KeysAbove(cs, pos, |base|, w);
    }
    assert w !in cs;
    GrowthFromRight(cs, w);
    WorkerHeadCut(base, cur, pos, d, cs, w);
    assert Interleave(cs, ws) == [w] + Interleave(cs, ws[1..]);
    assert RebaseBy(ws, cs, d) == [w.Shifted(d)] + RebaseBy(ws[1..], cs, d);
  }

  /** The current side's leftmost edit comes first (or both sides made it). */
  lemma DiamondCurrentFirst(base: seq<Line>, cur: seq<Line>, pos: int, d: int, cs: seq<Edit>, ws: seq<Edit>, rest: seq<Edit>)
    requires CutOk(base, cur, pos, d, cs, ws) && cs != [] && ws != []
    requires cs[0] == ws[0] || Before(cs[0], ws[0])
    requires rest == if cs[0] == ws[0] then ws[1..] else ws
    requires
      var d' := d + cs[0].Gain();
      CutOk(base, cur, cs[0].end, d', cs[1..], rest) ==> DiamondHolds(base, cur, cs[0].end, d', cs[1..], rest)
    ensures DiamondHolds(base, cur, pos, d, cs, ws)
  {
    hide *;
    var c := cs[0];
    var d' := d + c.Gain();
    CutParts(base, cur, pos, d, cs, ws);
    CurrentFirst(base, pos, d, cs, ws, rest);
    CurrentHeadCut(base, cur, pos, d, cs);
    CutMade(base, cur, c.end, d', cs[1..], rest);
    var u, r := Interleave(cs[1..], rest), RebaseBy(rest, cs[1..], d');
    HoldsParts(base, cur, c.end, d', cs[1..], rest);
    GlueCurrent(base, cur, pos, pos + d, c.end + d', c, u, r);
    HoldsParts(base, cur, pos, d, cs, ws);
  }

  lemma CutMade(base: seq<Line>, cur: seq<Line>, pos: int, d: int, cs: seq<Edit>, ws: seq<Edit>)
    requires Walkable(cs, ws, pos, |base|) && Applicable(cs, pos, |base|)
    requires 0 <= pos && 0 <= pos + d <= |cur| && cur[pos + d..] == ApplyFrom(base, pos, cs)
    ensures CutOk(base, cur, pos, d, cs, ws)
  {
  }

  lemma HoldsParts(base: seq<Line>, cur: seq<Line>, pos: int, d: int, cs: seq<Edit>, ws: seq<Edit>)
    ensures DiamondHolds(base, cur, pos, d, cs, ws)
       <==> 0 <= pos && Applicable(Interleave(cs, ws), pos, |base|)
            && 0 <= pos + d && Applicable(RebaseBy(ws, cs, d), pos + d, |cur|)
            && ApplyFrom(cur, pos + d, RebaseBy(ws, cs, d)) == ApplyFrom(base, pos, Interleave(cs, ws))
  {
  }

  lemma CutParts(base: seq<Line>, cur: seq<Line>, pos: int, d: int, cs: seq<Edit>, ws: seq<Edit>)
    requires CutOk(base, cur, pos, d, cs, ws)
    ensures Walkable(cs, ws, pos, |base|) && Applicable(cs, pos, |base|)
    ensures 0 <= pos && 0 <= pos + d <= |cur| && cur[pos + d..] == ApplyFrom(base, pos, cs)
  {
  }

  /** Taking the current side's head: the union and the rebased edits without it. */
  lemma CurrentFirst(base: seq<Line>, pos: int, d: int, cs: seq<Edit>, ws: seq<Edit>, rest: seq<Edit>)
    requires Walkable(cs, ws, pos, |base|) && cs != [] && ws != []
    requires cs[0] == ws[0] || Before(cs[0], ws[0])
    requires rest == if cs[0] == ws[0] then ws[1..] else ws
    ensures Interleave(cs, ws) == [cs[0]] + Interleave(cs[1..], rest)
    ensures RebaseBy(ws, cs, d) == RebaseBy(rest, cs[1..], d + cs[0].Gain())
    ensures Walkable(cs[1..], rest, cs[0].end, |base|) && pos <= cs[0].start <= cs[0].end <= |base|
    ensures Applicable(cs, pos, |base|)
  {
    KeysAbove(rest, if cs[0] == ws[0] then cs[0].end else pos, |base|, cs[0]);
    RebasePast(rest, cs, d);
  }

  /** Both passes put the same lines in front of equal rests. */
  lemma GlueCurrent(base: seq<Line>, cur: seq<Line>, pos: int, from: int, upTo: int, c: Edit, u: seq<Edit>, r: seq<Edit>)
    requires 0 <= pos <= c.start <= c.end <= |base| && 0 <= from <= upTo <= |cur|
    requires Applicable(u, c.end, |base|) && Applicable(r, upTo, |cur|)
    requires ApplyFrom(cur, upTo, r) == ApplyFrom(base, c.end, u)
    requires cur[from..upTo] == base[pos..c.start] + c.lines
    ensures Applicable([c] + u, pos, |base|) && Applicable(r, from, |cur|)
    ensures ApplyFrom(cur, from, r) == ApplyFrom(base, pos, [c] + u)
  {
    hide ApplyFrom, Applicable;
    ApplyHead(base, pos, c, u);
    ApplyFromEarlier(cur, upTo, from, r);
  }

  lemma ApplyHead(base: seq<Line>, pos: int, c: Edit, u: seq<Edit>)
    requires 0 <= pos <= c.start <= c.end <= |base| && Applicable(u, c.end, |base|)
    ensures Applicable([c] + u, pos, |base|)
    ensures ApplyFrom(base, pos, [c] + u) == base[pos..c.start] + c.lines + ApplyFrom(base, c.end, u)
  {
    assert ([c] + u)[1..] == u && ([c] + u)[0] == c;
  }

  lemma {:induction false} DiamondFrom(base: seq<Line>, cur: seq<Line>, pos: int, d: int, cs: seq<Edit>, ws: seq<Edit>)
    requires CutOk(base, cur, pos, d, cs, ws)
    ensures DiamondHolds(base, cur, pos, d, cs, ws)
    decreases |cs| + |ws|
  {
    if ws == [] {
      assert Interleave(cs, ws) == cs;
    } else if cs == [] || (cs[0] != ws[0] && !Before(cs[0], ws[0])) {
      if CutOk(base, cur, ws[0].end, d, cs, ws[1..]) {
        DiamondFrom(base, cur, ws[0].end, d, cs, ws[1..]);
      }
      DiamondWorkerFirst(base, cur, pos, d, cs, ws);
    } else {
      var rest := if cs[0] == ws[0] then ws[1..] else ws;
      var d' := d + cs[0].Gain();
      if CutOk(base, cur, cs[0].end, d', cs[1..], rest) {
        DiamondFrom(base, cur, cs[0].end, d', cs[1..], rest);
      }
      DiamondCurrentFirst(base, cur, pos, d, cs, ws, rest);
    }
  }

  /** One side of the diamond: rebasing the other side's edits reaches the merge. */
  lemma RebasedReachesMerge(base: seq<Line>, current: seq<Line>, cs: seq<Edit>, ws: seq<Edit>)
    requires Ordered(cs, 0, |base|) && Ordered(ws, 0, |base|) && Compatible(cs, ws)
    requires Apply(base, cs) == current
    ensures Applicable(Rebase(ws, cs), 0, |current|) && Applicable(Interleave(cs, ws), 0, |base|)
    ensures Apply(current, Rebase(ws, cs)) == Apply(base, Interleave(cs, ws))
  {
    CompatibleWalkable(cs, ws, 0, |base|);
    assert current[0..] == current;
    DiamondFrom(base, current, 0, 0, cs, ws);
  }

  /** The merge of two conflict-free scripts is one text whichever side is rebased. */
  lemma Diamond(base: seq<Line>, current: seq<Line>, worker: seq<Line>, cs: seq<Edit>, ws: seq<Edit>)
    requires IsScript(base, current, cs) && IsScript(base, worker, ws) && Compatible(cs, ws)
    ensures Applicable(Rebase(ws, cs), 0, |current|) && Applicable(Rebase(cs, ws), 0, |worker|)
    ensures Apply(current, Rebase(ws, cs)) == Apply(worker, Rebase(cs, ws))
    ensures Interleave(cs, ws) == Interleave(ws, cs) && Applicable(Interleave(cs, ws), 0, |base|)
    ensures Apply(current, Rebase(ws, cs)) == Apply(base, Interleave(cs, ws))
  {
    CompatibleSymmetric(cs, ws, |base|);
    InterleaveSymmetric(cs, ws, 0, |base|);
    RebasedReachesMerge(base, current, cs, ws);
    RebasedReachesMerge(base, worker, ws, cs);
  }

  lemma CompatibleSymmetric(cs: seq<Edit>, ws: seq<Edit>, n: int)
    requires Ordered(cs, 0, n) && Ordered(ws, 0, n) && Compatible(cs, ws)
    ensures Compatible(ws, cs)
  {
    forall w, c | w in ws && c in cs ensures !EditsConflict(w, c) {
      OrderedTail(cs, 0, n, c);
      OrderedTail(ws, 0, n, w);
      ConflictMeansUnordered(c, w);
    }
  }

  // ---------------------------------------------------------------------------------
  // What is in the merged text
  // ---------------------------------------------------------------------------------

  /** No edit removes base line i. */
  ghost predicate Untouched(edits: seq<Edit>, i: int) {
    forall e :: e in edits ==> !(e.start <= i < e.end)
  }

  /** Where base line i ends up: moved by every edit that ends at or before it. */
  ghost function Landing(edits: seq<Edit>, i: int): int {
    if edits == [] then i
    else (if edits[0].end <= i then edits[0].Gain() else 0) + Landing(edits[1..], i)
  }

  lemma {:induction false} LandingRight(edits: seq<Edit>, pos: int, n: int, i: int)
    requires Applicable(edits, pos, n) && i < pos
    ensures Landing(edits, i) == i
  {
    if edits != [] {
      LandingRight(edits[1..], edits[0].end, n, i);
    }
  }

  /** Every base line touched by neither side is in the merged text, at its landing place. */
  lemma {:induction false} UntouchedSurvives(base: seq<Line>, pos: int, edits: seq<Edit>, i: int)
    requires 0 <= pos <= i < |base| && Applicable(edits, pos, |base|) && Untouched(edits, i)
    ensures
      var merged := ApplyFrom(base, pos, edits);
      0 <= Landing(edits, i) - pos < |merged| && merged[Landing(edits, i) - pos] == base[i]
    decreases edits
  {
    if edits != [] {
      var x := edits[0];
      assert x in edits;
      ApplyHead(base, pos, x, edits[1..]);
      assert edits == [x] + edits[1..];
      ghost var rest := ApplyFrom(base, x.end, edits[1..]);
      assert ApplyFrom(base, pos, edits) == base[pos..x.start] + x.lines + rest;
      if x.end <= i {
        UntouchedSurvives(base, x.end, edits[1..], i);
        hide ApplyFrom;
      } else {
        hide ApplyFrom;
        LandingRight(edits[1..], edits[0].end, |base|, i);
      }
    }
  }

  /** ... and the survivors keep their order. */
  lemma {:induction false} SurvivorsInOrder(pos: int, n: int, edits: seq<Edit>, i: int, j: int)
    requires Applicable(edits, pos, n) && i < j
    requires Untouched(edits, i) && Untouched(edits, j)
    ensures Landing(edits, i) < Landing(edits, j)
    ensures pos <= j ==> pos <= Landing(edits, j)
    decreases edits
  {
    if edits != [] {
      var e := edits[0];
      assert e in edits;
      SurvivorsInOrder(e.end, n, edits[1..], i, j);
      if i < e.end { LandingRight(edits[1..], e.end, n, i); }
      if j < e.end { LandingRight(edits[1..], e.end, n, j); }
    }
  }

  /** Every edit of the script puts its lines into the merged text, where rebasing puts it. */
  lemma {:induction false} EditLands(base: seq<Line>, pos: int, edits: seq<Edit>, e: Edit)
    requires 0 <= pos && Ordered(edits, pos, |base|) && e in edits
    ensures
      var merged := ApplyFrom(base, pos, edits);
      var at := e.start - pos + Growth(edits, e);
      0 <= at <= at + |e.lines| <= |merged| && merged[at..at + |e.lines|] == e.lines
    decreases edits
  {
    var x, rest := edits[0], ApplyFrom(base, edits[0].end, edits[1..]);
    var front := base[pos..x.start];
    if e == x {
      GrowthFromRight(edits, e);
      hide *;
      PartStands(front, e.lines, rest);
    } else {
      OrderedTail(edits, pos, |base|, e);
      EditLands(base, x.end, edits[1..], e);
      LaterStands(front + x.lines, rest, e.start - x.end + Growth(edits[1..], e), e.lines);
    }
  }

  lemma PartStands(front: seq<Line>, part: seq<Line>, rest: seq<Line>)
    ensures (front + part + rest)[|front|..|front| + |part|] == part
  {
  }

  lemma LaterStands(head: seq<Line>, rest: seq<Line>, at: int, part: seq<Line>)
    requires 0 <= at <= at + |part| <= |rest| && rest[at..at + |part|] == part
    ensures (head + rest)[|head| + at..|head| + at + |part|] == part
  {
    assert (head + rest)[|head| + at..|head| + at + |part|] == rest[at..at + |part|];
  }

  /** One side unchanged: the merge is the other side. */
  lemma UnchangedSide(base: seq<Line>, other: seq<Line>, edits: seq<Edit>)
    requires IsScript(base, other, edits)
    ensures Compatible([], edits) && Apply(base, Interleave([], edits)) == other
    ensures Compatible(edits, []) && Apply(base, Interleave(edits, [])) == other
  {
  }
}
