/**
  The three-way merge of line edits (`_merge_disjoint_text`, `_line_edits` and
  `_edits_conflict` of the change-proposal store).

  A diff is any edit script: a list of strictly separated edits of the base whose
  simultaneous application gives the other text. The merge splices two such scripts into
  one copy of the base, in place, last edit first. The module relates that loop to the
  left-to-right application of the interleaved scripts and proves the diamond: each side's
  edits, rebased over the other side, reach the same text.
 */
module LineMerge {

  type Line = string

  /** One non-equal opcode: base lines [start, end) become `lines`. */
  datatype Edit = Edit(start: int, end: int, lines: seq<Line>) {
    predicate IsInsertion() { start == end }

    /** How many lines the text grows by (negative when it shrinks). */
    function Gain(): int { |lines| - (end - start) }

    function Shifted(d: int): Edit { Edit(start + d, end + d, lines) }
  }

  datatype MergeResult = Merged(lines: seq<Line>) | Overlapping

  /** The ascending sort key of the merge: first start, then end. */
  predicate KeyLess(x: Edit, y: Edit) {
    x.start < y.start || (x.start == y.start && x.end < y.end)
  }

  /** `x` can be applied strictly to the left of `y`. */
  predicate Before(x: Edit, y: Edit) {
    x.end <= y.start && KeyLess(x, y)
  }

  // ---------------------------------------------------------------------------------
  // The conflict predicate
  // ---------------------------------------------------------------------------------

  function EditsConflict(left: Edit, right: Edit): bool {
    if left.start == left.end && right.start == right.end then
      left.start == right.start && left.lines != right.lines
    else if left.start == left.end then
      right.start < left.start < right.end
    else if right.start == right.end then
      left.start < right.start < left.end
    else
      Max(left.start, right.start) < Min(left.end, right.end)
  }

  function Max(x: int, y: int): int { if x < y then y else x }

  function Min(x: int, y: int): int { if x < y then x else y }

  /** The hand-written case split means: two edits conflict exactly when they are not the
      same insertion and neither can be applied to the left of the other. */
  lemma ConflictMeansUnordered(x: Edit, y: Edit)
    requires x.start <= x.end && y.start <= y.end
    ensures EditsConflict(x, y) <==> !((x == y && x.IsInsertion()) || Before(x, y) || Before(y, x))
    ensures EditsConflict(x, y) == EditsConflict(y, x)
  {
    if x.IsInsertion() && y.IsInsertion() && x.start == y.start {
      assert x.lines == y.lines <==> x == y;
    }
  }

  // ---------------------------------------------------------------------------------
  // Scripts and their meaning
  // ---------------------------------------------------------------------------------

  /** Edits that can be applied to base[pos..] in one pass from left to right. */
  ghost predicate Applicable(edits: seq<Edit>, pos: int, n: int) {
    if edits == [] then pos <= n
    else pos <= edits[0].start <= edits[0].end <= n && Applicable(edits[1..], edits[0].end, n)
  }

  ghost predicate Ascending(edits: seq<Edit>) {
    |edits| > 1 ==> KeyLess(edits[0], edits[1]) && Ascending(edits[1..])
  }

  ghost predicate Ordered(edits: seq<Edit>, pos: int, n: int) {
    Applicable(edits, pos, n) && Ascending(edits)
  }

  /** What an ordered script means: one left-to-right pass over the base. */
  ghost function ApplyFrom(base: seq<Line>, pos: int, edits: seq<Edit>): seq<Line>
    requires 0 <= pos && Applicable(edits, pos, |base|)
    decreases edits
  {
    if edits == [] then base[pos..]
    else base[pos..edits[0].start] + edits[0].lines + ApplyFrom(base, edits[0].end, edits[1..])
  }

  ghost function Apply(base: seq<Line>, edits: seq<Edit>): seq<Line>
    requires Applicable(edits, 0, |base|)
  {
    ApplyFrom(base, 0, edits)
  }

  /** No two edits of one side touch: at least one equal line lies between them. */
  ghost predicate Separated(edits: seq<Edit>) {
    forall i :: 0 <= i < |edits| - 1 ==> edits[i].end < edits[i + 1].start
  }

  /** The contract of `difflib`'s opcodes, with the equal ones filtered out. */
  ghost predicate IsScript(base: seq<Line>, result: seq<Line>, edits: seq<Edit>) {
    && Ordered(edits, 0, |base|)
    && Separated(edits)
    && (forall i :: 0 <= i < |edits| ==> edits[i].IsInsertion() ==> edits[i].lines != [])
    && Apply(base, edits) == result
  }

  lemma {:induction false} OrderedTail(edits: seq<Edit>, pos: int, n: int, e: Edit)
    requires Ordered(edits, pos, n) && e in edits
    ensures pos <= e.start <= e.end <= n
    ensures edits[0] == e || Before(edits[0], e)
  {
    if edits[0] != e {
      OrderedTail(edits[1..], edits[0].end, n, e);
    }
  }

  lemma {:induction false} OrderedRelax(edits: seq<Edit>, pos: int, pos': int, n: int)
    requires Ordered(edits, pos, n) && pos' <= pos
    ensures Ordered(edits, pos', n)
  {
  }

  /** Moving the start of the pass to the left only adds untouched base lines. */
  lemma {:induction false} ApplyFromEarlier(base: seq<Line>, pos: int, pos': int, edits: seq<Edit>)
    requires Applicable(edits, pos, |base|) && 0 <= pos' <= pos
    ensures Applicable(edits, pos', |base|)
    ensures ApplyFrom(base, pos', edits) == base[pos'..pos] + ApplyFrom(base, pos, edits)
  {
    if edits == [] {
      assert base[pos'..] == base[pos'..pos] + base[pos..];
    } else {
      var e := edits[0];
      assert base[pos'..e.start] == base[pos'..pos] + base[pos..e.start];
      assert Applicable(edits[1..], e.end, |base|);
      ghost var rest := ApplyFrom(base, e.end, edits[1..]);
      assert ApplyFrom(base, pos, edits) == base[pos..e.start] + e.lines + rest;
      assert ApplyFrom(base, pos', edits) == base[pos'..e.start] + e.lines + rest;
    }
  }

  // ---------------------------------------------------------------------------------
  // The union of two scripts
  // ---------------------------------------------------------------------------------

  ghost predicate Compatible(cs: seq<Edit>, ws: seq<Edit>) {
    forall c, w :: c in cs && w in ws ==> !EditsConflict(c, w)
  }

  /** Both scripts in one ascending list, a common insertion taken once. */
  ghost function Interleave(cs: seq<Edit>, ws: seq<Edit>): seq<Edit>
    decreases |cs| + |ws|
  {
    if cs == [] then ws
    else if ws == [] then cs
    else if cs[0] == ws[0] then [cs[0]] + Interleave(cs[1..], ws[1..])
    else if KeyLess(cs[0], ws[0]) then [cs[0]] + Interleave(cs[1..], ws)
    else [ws[0]] + Interleave(cs, ws[1..])
  }

  lemma {:induction false} InterleaveElements(cs: seq<Edit>, ws: seq<Edit>, e: Edit)
    ensures e in Interleave(cs, ws) <==> e in cs || e in ws
    decreases |cs| + |ws|
  {
    if cs != [] && ws != [] {
      if cs[0] == ws[0] {
        InterleaveElements(cs[1..], ws[1..], e);
        assert cs == [cs[0]] + cs[1..] && ws == [ws[0]] + ws[1..];
      } else if KeyLess(cs[0], ws[0]) {
        InterleaveElements(cs[1..], ws, e);
        assert cs == [cs[0]] + cs[1..];
      } else {
        InterleaveElements(cs, ws[1..], e);
        assert ws == [ws[0]] + ws[1..];
      }
    }
  }

  /** Heads of two compatible scripts: equal, or one strictly to the left of the other. */
  lemma HeadsComparable(cs: seq<Edit>, ws: seq<Edit>, pc: int, pw: int, n: int)
    requires cs != [] && ws != [] && Ordered(cs, pc, n) && Ordered(ws, pw, n) && Compatible(cs, ws)
    ensures cs[0] == ws[0] || Before(cs[0], ws[0]) || Before(ws[0], cs[0])
  {
    assert !EditsConflict(cs[0], ws[0]);
    ConflictMeansUnordered(cs[0], ws[0]);
  }

  /** When the scripts do not conflict the interleaving can be applied side by side. */
  lemma {:induction false} InterleaveOrdered(cs: seq<Edit>, ws: seq<Edit>, pos: int, n: int)
    requires Ordered(cs, pos, n) && Ordered(ws, pos, n) && Compatible(cs, ws)
    ensures Ordered(Interleave(cs, ws), pos, n)
    decreases |cs| + |ws|
  {
    if cs != [] && ws != [] {
      HeadsComparable(cs, ws, pos, pos, n);
      if cs[0] == ws[0] {
        InterleaveOrdered(cs[1..], ws[1..], cs[0].end, n);
      } else if KeyLess(cs[0], ws[0]) {
        OrderedFrom(ws, pos, cs[0].end, n);
        InterleaveOrdered(cs[1..], ws, cs[0].end, n);
      } else {
        OrderedFrom(cs, pos, ws[0].end, n);
        InterleaveOrdered(cs, ws[1..], ws[0].end, n);
      }
    }
  }

  lemma OrderedFrom(edits: seq<Edit>, pos: int, pos': int, n: int)
    requires Ordered(edits, pos, n) && edits != [] && pos' <= edits[0].start
    ensures Ordered(edits, pos', n)
  {
  }

  lemma {:induction false} InterleaveSymmetric(cs: seq<Edit>, ws: seq<Edit>, pos: int, n: int)
    requires Ordered(cs, pos, n) && Ordered(ws, pos, n) && Compatible(cs, ws)
    ensures Interleave(cs, ws) == Interleave(ws, cs)
    decreases |cs| + |ws|
  {
    if cs != [] && ws != [] {
      HeadsComparable(cs, ws, pos, pos, n);
      if cs[0] == ws[0] {
        InterleaveSymmetric(cs[1..], ws[1..], cs[0].end, n);
      } else if KeyLess(cs[0], ws[0]) {
        OrderedFrom(ws, pos, cs[0].end, n);
        InterleaveSymmetric(cs[1..], ws, cs[0].end, n);
      } else {
        OrderedFrom(cs, pos, ws[0].end, n);
        InterleaveSymmetric(cs, ws[1..], ws[0].end, n);
      }
    }
  }

  // ---------------------------------------------------------------------------------
  // The loop: splice in place, last edit first
  // ---------------------------------------------------------------------------------

  ghost predicate Descending(edits: seq<Edit>) {
    forall i, j :: 0 <= i < j < |edits| ==> !KeyLess(edits[i], edits[j])
  }

  /** `sorted(edits, key=(start, end), reverse=True)`: a stable insertion sort. */
  function SortDescending(edits: seq<Edit>): seq<Edit> {
    if edits == [] then [] else InsertDescending(edits[0], SortDescending(edits[1..]))
  }

  function InsertDescending(e: Edit, sorted: seq<Edit>): seq<Edit> {
    if sorted == [] || !KeyLess(e, sorted[0]) then [e] + sorted
    else [sorted[0]] + InsertDescending(e, sorted[1..])
  }

  lemma {:induction false} InsertKeeps(e: Edit, sorted: seq<Edit>)
    ensures multiset(InsertDescending(e, sorted)) == multiset{e} + multiset(sorted)
  {
    if sorted != [] && KeyLess(e, sorted[0]) {
      InsertKeeps(e, sorted[1..]);
      assert sorted == [sorted[0]] + sorted[1..];
    }
  }

  lemma DescendingCons(x: Edit, rest: seq<Edit>)
    requires Descending(rest) && forall j :: 0 <= j < |rest| ==> !KeyLess(x, rest[j])
    ensures Descending([x] + rest)
  {
    hide KeyLess;
  }

  lemma {:induction false} InsertSorts(e: Edit, sorted: seq<Edit>)
    requires Descending(sorted)
    ensures Descending(InsertDescending(e, sorted))
  {
    if sorted == [] || !KeyLess(e, sorted[0]) {
      forall j | 0 <= j < |sorted| ensures !KeyLess(e, sorted[j]) {
        assert j > 0 ==> !KeyLess(sorted[0], sorted[j]);
      }
      DescendingCons(e, sorted);
    } else {
      var rest := InsertDescending(e, sorted[1..]);
      InsertSorts(e, sorted[1..]);
      InsertKeeps(e, sorted[1..]);
      hide InsertDescending;
      forall j | 0 <= j < |rest| ensures !KeyLess(sorted[0], rest[j]) {
        assert rest[j] in multiset(rest);
        assert rest[j] == e || rest[j] in sorted[1..];
      }
      DescendingCons(sorted[0], rest);
    }
  }

  lemma {:induction false} SortSorts(edits: seq<Edit>)
    ensures multiset(SortDescending(edits)) == multiset(edits)
    ensures Descending(SortDescending(edits))
  {
    if edits != [] {
      SortSorts(edits[1..]);
      InsertSorts(edits[0], SortDescending(edits[1..]));
      InsertKeeps(edits[0], SortDescending(edits[1..]));
      assert edits == [edits[0]] + edits[1..];
    }
  }

  ghost function Reversed(edits: seq<Edit>): (r: seq<Edit>)
    ensures |r| == |edits|
    ensures forall i :: 0 <= i < |r| ==> r[i] == edits[|edits| - 1 - i]
  {
    if edits == [] then [] else Reversed(edits[1..]) + [edits[0]]
  }

  lemma {:induction false} OrderedKeys(edits: seq<Edit>, pos: int, n: int, i: nat, j: nat)
    requires Ordered(edits, pos, n) && i < j < |edits|
    ensures Before(edits[i], edits[j])
    decreases i
  {
    if i == 0 {
      OrderedTail(edits, pos, n, edits[j]);
      if edits[0] == edits[j] {
        OrderedTail(edits[1..], edits[0].end, n, edits[j]);
      }
    } else {
      OrderedKeys(edits[1..], edits[0].end, n, i - 1, j - 1);
    }
  }

  lemma LastIsLeast(d: seq<Edit>, u: seq<Edit>, pos: int, n: int)
    requires Descending(d) && Ordered(u, pos, n) && u != []
    requires multiset(d) == multiset(u)
    ensures d != [] && d[|d| - 1] == u[0]
  {
    assert u[0] in multiset(d);
    var k :| 0 <= k < |d| && d[k] == u[0];
    var last := d[|d| - 1];
    assert last in multiset(u);
    OrderedTail(u, pos, n, last);
    if k == |d| - 1 {
    } else {
      assert !KeyLess(d[k], d[|d| - 1]);
    }
  }

  lemma DropLastFirst(d: seq<Edit>, u: seq<Edit>)
    requires d != [] && u != [] && d[|d| - 1] == u[0] && multiset(d) == multiset(u)
    ensures multiset(d[..|d| - 1]) == multiset(u[1..])
  {
    assert d == d[..|d| - 1] + [u[0]];
    assert u == [u[0]] + u[1..];
    assert multiset(d[..|d| - 1]) == multiset(d) - multiset{u[0]};
    assert multiset(u[1..]) == multiset(u) - multiset{u[0]};
  }

  /** Sorting a list that holds an ordered script gives the script reversed. */
  lemma {:induction false} SortedIsReversed(d: seq<Edit>, u: seq<Edit>, pos: int, n: int)
    requires Descending(d) && Ordered(u, pos, n)
    requires multiset(d) == multiset(u)
    ensures d == Reversed(u)
    decreases |u|
  {
    if u == [] {
      assert |multiset(d)| == |d|;
    } else {
      LastIsLeast(d, u, pos, n);
      DropLastFirst(d, u);
      SortedIsReversed(d[..|d| - 1], u[1..], u[0].end, n);
    }
  }

  /** The edits of an ordered script are pairwise different. */
  lemma {:induction false} OrderedOnce(edits: seq<Edit>, pos: int, n: int, e: Edit)
    requires Ordered(edits, pos, n)
    ensures multiset(edits)[e] == if e in edits then 1 else 0
  {
    if edits != [] {
      assert edits == [edits[0]] + edits[1..];
      OrderedOnce(edits[1..], edits[0].end, n, e);
      if e == edits[0] && e in edits[1..] {
        var k :| 0 <= k < |edits| - 1 && edits[1..][k] == e;
        OrderedKeys(edits, pos, n, 0, k + 1);
      }
    }
  }

  /** The list that the loop sorts holds the same edits as the interleaving. */
  lemma SameEdits(edits: seq<Edit>, cs: seq<Edit>, ws: seq<Edit>, n: int)
    requires Ordered(cs, 0, n) && Ordered(ws, 0, n) && Compatible(cs, ws)
    requires forall e :: multiset(edits)[e] == if e in cs || e in ws then 1 else 0
    ensures Ordered(Interleave(cs, ws), 0, n)
    ensures multiset(edits) == multiset(Interleave(cs, ws))
  {
    InterleaveOrdered(cs, ws, 0, n);
    forall e ensures multiset(Interleave(cs, ws))[e] == multiset(edits)[e] {
      InterleaveElements(cs, ws, e);
      OrderedOnce(Interleave(cs, ws), 0, n, e);
    }
  }

  /** One splice of the loop: everything right of the edit is already final, so replacing
      base lines at their original offsets is what the left-to-right pass would do. */
  lemma SpliceStep(base: seq<Line>, u: seq<Edit>, k: nat)
    requires k < |u| && Applicable(u[k..], 0, |base|) && Applicable(u[k + 1..], 0, |base|)
    ensures
      var merged := Apply(base, u[k + 1..]);
      && 0 <= u[k].start <= u[k].end <= |merged|
      && merged[..u[k].start] + u[k].lines + merged[u[k].end..] == Apply(base, u[k..])
  {
    var e, rest := u[k], u[k + 1..];
    assert u[k..][0] == e && u[k..][1..] == rest;
    assert Applicable(rest, e.end, |base|);
    ApplyFromEarlier(base, e.end, 0, rest);
  }

  lemma {:induction false} SuffixesOrdered(u: seq<Edit>, pos: int, n: int, i: nat)
    requires Ordered(u, pos, n) && 0 <= pos && i <= |u|
    ensures Ordered(u[i..], 0, n)
  {
    if i == 0 {
      OrderedRelax(u, pos, 0, n);
    } else {
      SuffixesOrdered(u[1..], u[0].end, n, i - 1);
      assert u[1..][i - 1..] == u[i..];
    }
  }

  /** The conflict test of every current edit against every worker edit. */
  method AnyConflict(currentEdits: seq<Edit>, workerEdits: seq<Edit>) returns (conflict: bool)
    ensures conflict <==> !Compatible(currentEdits, workerEdits)
  {
    for i := 0 to |currentEdits|
      invariant Compatible(currentEdits[..i], workerEdits)
    {
      for j := 0 to |workerEdits|
        invariant forall w :: w in workerEdits[..j] ==> !EditsConflict(currentEdits[i], w)
      {
        if EditsConflict(currentEdits[i], workerEdits[j]) {
          return true;
        }
      }
    }
    return false;
  }

  /** The current side's edits followed by the worker's, a common edit taken once. */
  method UnionOfEdits(currentEdits: seq<Edit>, workerEdits: seq<Edit>, n: int) returns (edits: seq<Edit>)
    requires Ordered(currentEdits, 0, n)
    ensures forall e :: multiset(edits)[e] == if e in currentEdits || e in workerEdits then 1 else 0
  {
    edits := currentEdits;
    forall e ensures multiset(currentEdits)[e] == if e in currentEdits then 1 else 0 {
      OrderedOnce(currentEdits, 0, n, e);
    }
    for j := 0 to |workerEdits|
      invariant forall e :: multiset(edits)[e] == if e in currentEdits || e in workerEdits[..j] then 1 else 0
    {
      var w := workerEdits[j];
      assert workerEdits[..j + 1] == workerEdits[..j] + [w];
      assert w in edits <==> multiset(edits)[w] > 0;
      if w !in edits {
        edits := edits + [w];
      }
    }
    assert workerEdits[..|workerEdits|] == workerEdits;
  }

  /** `_merge_disjoint_text` over line lists; the two scripts are what `difflib` answered. */
  method MergeDisjoint(base: seq<Line>, currentEdits: seq<Edit>, workerEdits: seq<Edit>) returns (r: MergeResult)
    requires Ordered(currentEdits, 0, |base|) && Ordered(workerEdits, 0, |base|)
    ensures r.Overlapping? <==> !Compatible(currentEdits, workerEdits)
    ensures r.Merged? ==> Ordered(Interleave(currentEdits, workerEdits), 0, |base|)
    ensures r.Merged? ==> r.lines == Apply(base, Interleave(currentEdits, workerEdits))
  {
    var conflict := AnyConflict(currentEdits, workerEdits);
    if conflict {
      return Overlapping;
    }
    ghost var u := Interleave(currentEdits, workerEdits);
    var edits := UnionOfEdits(currentEdits, workerEdits, |base|);
    var order := SortDescending(edits);
    SameEdits(edits, currentEdits, workerEdits, |base|);
    SortSorts(edits);
    SortedIsReversed(order, u, 0, |base|);
    var merged := SpliceAll(base, order, u);
    r := Merged(merged);
  }

  /** `for start, end, replacement in ...: merged[start:end] = replacement` */
  method SpliceAll(base: seq<Line>, order: seq<Edit>, ghost u: seq<Edit>) returns (merged: seq<Line>)
    requires Ordered(u, 0, |base|) && order == Reversed(u)
    ensures merged == Apply(base, u)
  {
    merged := base;
    forall i | 0 <= i <= |u| ensures Ordered(u[i..], 0, |base|) {
      SuffixesOrdered(u, 0, |base|, i);
    }
    for k := 0 to |order|
      invariant merged == Apply(base, u[|u| - k..])
    {
      SpliceStep(base, u, |u| - 1 - k);
      merged := merged[..order[k].start] + order[k].lines + merged[order[k].end..];
    }
    assert u[0..] == u;
  }
}
