/** The lineage tree that inspecting a session prints. */
module RunTree {
  import opened Json
  import opened Ordering

  /** A run of the session; the text of its line is a function of the run. */
  datatype Run = Run(id: string, parent: Option<string>, createdAt: int)

  /** A printed line: how deep it is indented, and the run it shows. */
  datatype Line = Line(depth: nat, run: Run)

  type Children = map<string, seq<Run>>

  predicate Older(a: Run, b: Run) { a.createdAt <= b.createdAt }

  function ByAge(runs: seq<Run>): (r: seq<Run>)
    ensures multiset(r) == multiset(runs)
  {
    Sort(Older, runs)
  }

  /** The runs whose parent link is the given one, in the order of the session. */
  function WithParent(runs: seq<Run>, parent: Option<string>): seq<Run> {
    if runs == [] then []
    else
      var n := |runs| - 1;
      WithParent(runs[..n], parent) + if runs[n].parent == parent then [runs[n]] else []
  }

  lemma {:induction false} IsWithParent(runs: seq<Run>, parent: Option<string>, x: Run)
    ensures x in WithParent(runs, parent) <==> x in runs && x.parent == parent
  {
    if runs != [] {
      var n := |runs| - 1;
      IsWithParent(runs[..n], parent, x);
      assert runs == runs[..n] + [runs[n]];
    }
  }

  /** From a run without parent down to the last run, each the parent of the next. */
  ghost predicate Descent(runs: seq<Run>, c: seq<Run>) {
    && c != [] && c[0].parent == None
    && (forall k | 0 <= k < |c| :: c[k] in runs)
    && (forall k | 0 < k < |c| :: c[k].parent == Some(c[k - 1].id))
  }

  function Last(c: seq<Run>): Run
    requires c != []
  {
    c[|c| - 1]
  }

  ghost predicate Rooted(runs: seq<Run>, run: Run) { exists c :: Descent(runs, c) && Last(c) == run }

  /** No descent is longer than the session, so printing comes to an end. */
  ghost predicate Ends(runs: seq<Run>) { forall c | Descent(runs, c) :: |c| <= |runs| }

  // --------------------------------------------------- when printing comes to an end

  lemma {:induction false} DescentPrefix(runs: seq<Run>, c: seq<Run>, n: nat)
    requires Descent(runs, c) && 0 < n <= |c|
    ensures Descent(runs, c[..n])
  {
  }

  lemma {:induction false} DescentChild(runs: seq<Run>, c: seq<Run>, child: Run)
    requires Descent(runs, c) && child in WithParent(runs, Some(Last(c).id))
    ensures Descent(runs, c + [child])
  {
    IsWithParent(runs, Some(Last(c).id), child);
  }

  /** Going round once more between two places that show the same run. */
  lemma {:induction false} OnceMore(runs: seq<Run>, c: seq<Run>, i: nat, j: nat)
    requires Descent(runs, c) && i < j < |c| && c[i] == c[j]
    ensures Descent(runs, c[..j] + c[i..]) && |c[..j] + c[i..]| > |c|
  {
    var d := c[..j] + c[i..];
    forall k | 0 < k < |d| ensures d[k].parent == Some(d[k - 1].id) {
      if k == j {
        assert d[k] == c[j] && d[k - 1] == c[j - 1];
      } else if k > j {
        assert d[k] == c[k - j + i] && d[k - 1] == c[k - j + i - 1];
      }
    }
  }

  /** Either printing ends, or it goes deeper than any bound: so `Ends` is what
      the recursion needs, no more. */
  lemma {:induction false} EndsOrGoesOnForever(runs: seq<Run>, n: nat)
    requires !Ends(runs)
    ensures exists c :: Descent(runs, c) && |c| > |runs| && |c| >= n
  {
    if n == 0 {
      var c :| Descent(runs, c) && |c| > |runs|;
    } else {
      EndsOrGoesOnForever(runs, n - 1);
      var c :| Descent(runs, c) && |c| > |runs| && |c| >= n - 1;
      ElementsSize(runs);
      if Distinct(c) {
        DistinctFits(c, Elements(runs));
        assert false;
      }
      var i, j :| 0 <= i < j < |c| && c[i] == c[j];
      OnceMore(runs, c, i, j);
    }
  }

  ghost predicate DistinctRuns(runs: seq<Run>) {
    forall i, j | 0 <= i < j < |runs| :: runs[i].id != runs[j].id
  }

  lemma {:induction false} SameRun(runs: seq<Run>, a: Run, b: Run)
    requires DistinctRuns(runs) && a in runs && b in runs && a.id == b.id
    ensures a == b
  {
    var i :| 0 <= i < |runs| && runs[i] == a;
    var j :| 0 <= j < |runs| && runs[j] == b;
    assert i == j;
  }

  lemma {:induction false} AloneIffRoot(runs: seq<Run>, c: seq<Run>)
    requires Descent(runs, c)
    ensures |c| == 1 <==> Last(c).parent == None
  {
    var n := |c| - 1;
    assert n > 0 ==> c[n].parent == Some(c[n - 1].id);
  }

  /** With distinct ids there is one way down to a run. */
  lemma {:induction false} OneDescent(runs: seq<Run>, p: seq<Run>, q: seq<Run>)
    requires DistinctRuns(runs) && Descent(runs, p) && Descent(runs, q) && Last(p) == Last(q)
    ensures p == q
    decreases |p|
  {
    var m, n := |p| - 1, |q| - 1;
    AloneIffRoot(runs, p);
    AloneIffRoot(runs, q);
    if m > 0 {
      SameRun(runs, p[m - 1], q[n - 1]);
      DescentPrefix(runs, p, m);
      DescentPrefix(runs, q, n);
      OneDescent(runs, p[..m], q[..n]);
    }
    assert p == p[..m] + [p[m]] && q == q[..n] + [q[n]];
  }

  /** Distinct ids are enough for printing to end, even when parent links are
      cyclic elsewhere. */
  lemma {:induction false} DistinctRunsEnd(runs: seq<Run>)
    requires DistinctRuns(runs)
    ensures Ends(runs)
  {
    forall c | Descent(runs, c) ensures |c| <= |runs| {
      forall i, j | 0 <= i < j < |c| ensures c[i] != c[j] {
        if c[i] == c[j] {
          DescentPrefix(runs, c, i + 1);
          DescentPrefix(runs, c, j + 1);
          OneDescent(runs, c[..i + 1], c[..j + 1]);
          assert false;
        }
      }
      DistinctFits(c, Elements(runs));
      ElementsSize(runs);
    }
  }

  // --------------------------------------------------------- the lines of a tree

  /** Runs that can follow the descent c. */
  ghost predicate Siblings(runs: seq<Run>, list: seq<Run>, c: seq<Run>) {
    forall r | r in list :: Descent(runs, c + [r])
  }

  ghost function ChildrenOf(runs: seq<Run>, c: seq<Run>): seq<Run> {
    ByAge(WithParent(runs, if c == [] then None else Some(Last(c).id)))
  }

  lemma {:induction false} ChildrenAreSiblings(runs: seq<Run>, c: seq<Run>)
    requires c == [] || Descent(runs, c)
    ensures Siblings(runs, ChildrenOf(runs, c), c)
  {
    forall r | r in ChildrenOf(runs, c) ensures Descent(runs, c + [r]) {
      assert r in multiset(ChildrenOf(runs, c));
      if c == [] {
        IsWithParent(runs, None, r);
      } else {
        DescentChild(runs, c, r);
      }
    }
  }

  /** The line of a descent's last run, and below it the trees of its children,
      oldest first. */
  ghost function TreeLines(runs: seq<Run>, c: seq<Run>): seq<Line>
    requires Ends(runs) && Descent(runs, c)
    decreases |runs| - |c| + 1, 0
  {
    ChildrenAreSiblings(runs, c);
    [Line(|c| - 1, Last(c))] + ForestLines(runs, ChildrenOf(runs, c), c)
  }

  ghost function ForestLines(runs: seq<Run>, list: seq<Run>, c: seq<Run>): seq<Line>
    requires Ends(runs) && |c| <= |runs| && Siblings(runs, list, c)
    decreases |runs| - |c|, 1 + |list|
  {
    if list == [] then []
    else
      var n := |list| - 1;
      assert Descent(runs, c + [list[n]]);
      ForestLines(runs, list[..n], c) + TreeLines(runs, c + [list[n]])
  }

  /** The whole report below its heading. */
  ghost function SessionLines(runs: seq<Run>): seq<Line>
    requires Ends(runs)
  {
    ChildrenAreSiblings(runs, []);
    ForestLines(runs, ChildrenOf(runs, []), [])
  }

  // -------------------------------------------------------------------- printing

  /** Roots and children by parent id, in the order of the session. */
  method BuildAdjacency(runs: seq<Run>) returns (roots: seq<Run>, children: Children)
    ensures roots == WithParent(runs, None)
    ensures Adjacency(children, runs)
  {
    roots, children := [], map[];
    for i := 0 to |runs|
      invariant roots == WithParent(runs[..i], None)
      invariant Adjacency(children, runs[..i])
    {
      NextRun(runs, i, None);
      NextAdjacency(runs, i, children);
      match runs[i].parent
      case Some(p) => children := children[p := ChildList(children, p) + [runs[i]]];
      case None => roots := roots + [runs[i]];
    }
    assert runs[..|runs|] == runs;
  }

  lemma {:induction false} NextRun(runs: seq<Run>, i: nat, parent: Option<string>)
    requires i < |runs|
    ensures WithParent(runs[..i + 1], parent)
         == WithParent(runs[..i], parent) + (if runs[i].parent == parent then [runs[i]] else [])
  {
    assert runs[..i + 1][..i] == runs[..i];
  }

  lemma {:induction false} NextAdjacency(runs: seq<Run>, i: nat, children: Children)
    requires i < |runs| && Adjacency(children, runs[..i])
    ensures Adjacency(Added(children, runs[i]), runs[..i + 1])
  {
    forall id ensures ChildList(Added(children, runs[i]), id) == WithParent(runs[..i + 1], Some(id)) {
      NextRun(runs, i, Some(id));
    }
  }

  /** The children with one run pushed to its parent's list. */
  function Added(children: Children, run: Run): Children {
    if run.parent.Some? then children[run.parent.value := ChildList(children, run.parent.value) + [run]] else children
  }

  ghost predicate Adjacency(children: Children, runs: seq<Run>) {
    forall id :: ChildList(children, id) == WithParent(runs, Some(id))
  }

  function ChildList(children: Children, id: string): seq<Run> {
    if id in children then children[id] else []
  }

  /** The lines printed so far. */
  class Lines {
    var lines: seq<Line>

    constructor ()
      ensures lines == []
    {
      lines := [];
    }

    method Push(line: Line)
      modifies this
      ensures lines == old(lines) + [line]
    {
      lines := lines + [line];
    }
  }

  /** Terminates on every session on which the recursion has an end. */
  method PrintTree(ghost runs: seq<Run>, ghost c: seq<Run>, run: Run, children: Children, depth: nat, out: Lines)
    requires Ends(runs) && Descent(runs, c) && run == Last(c) && depth == |c| - 1
    requires Adjacency(children, runs)
    modifies out
    ensures out.lines == old(out.lines) + TreeLines(runs, c)
    decreases |runs| - |c| + 1, 0
  {
    out.Push(Line(depth, run));
    TreeIs(runs, c, ByAge(ChildList(children, run.id)));
    if run.id in children {
      PrintAll(runs, c, ByAge(children[run.id]), children, depth + 1, out);
      Reassociate(old(out.lines), [Line(depth, run)], ForestLines(runs, ByAge(children[run.id]), c));
    } else {
      assert ByAge([]) == [];
    }
  }

  lemma {:induction false} TreeIs(runs: seq<Run>, c: seq<Run>, list: seq<Run>)
    requires Ends(runs) && Descent(runs, c) && list == ByAge(WithParent(runs, Some(Last(c).id)))
    ensures |c| <= |runs| && Siblings(runs, list, c)
    ensures TreeLines(runs, c) == [Line(|c| - 1, Last(c))] + ForestLines(runs, list, c)
    ensures list == [] ==> TreeLines(runs, c) == [Line(|c| - 1, Last(c))]
  {
    ChildrenAreSiblings(runs, c);
  }

  /** The loop over the sorted children of one run, or over the roots. */
  method PrintAll(ghost runs: seq<Run>, ghost c: seq<Run>, sorted: seq<Run>, children: Children, depth: nat, out: Lines)
    requires Ends(runs) && |c| <= |runs| && Siblings(runs, sorted, c) && depth == |c|
    requires Adjacency(children, runs)
    modifies out
    ensures out.lines == old(out.lines) + ForestLines(runs, sorted, c)
    decreases |runs| - |c|, 1
  {
    for i := 0 to |sorted|
      invariant Siblings(runs, sorted[..i], c)
      invariant out.lines == old(out.lines) + ForestLines(runs, sorted[..i], c)
    {
      NextSibling(runs, sorted, c, i);
      PrintTree(runs, c + [sorted[i]], sorted[i], children, depth, out);
      Reassociate(old(out.lines), ForestLines(runs, sorted[..i], c), TreeLines(runs, c + [sorted[i]]));
    }
    assert sorted[..|sorted|] == sorted;
  }

  lemma {:induction false} Reassociate(a: seq<Line>, b: seq<Line>, c: seq<Line>)
    ensures a + b + c == a + (b + c)
  {
  }

  lemma {:induction false} NextSibling(runs: seq<Run>, list: seq<Run>, c: seq<Run>, i: nat)
    requires Ends(runs) && |c| <= |runs| && i < |list| && Siblings(runs, list, c)
    ensures Siblings(runs, list[..i], c) && Siblings(runs, list[..i + 1], c) && Descent(runs, c + [list[i]])
    ensures |c| < |runs|
    ensures ForestLines(runs, list[..i + 1], c) == ForestLines(runs, list[..i], c) + TreeLines(runs, c + [list[i]])
  {
    assert list[i] in list;
    assert list[..i + 1][..i] == list[..i];
  }

  lemma {:induction false} LastSibling(runs: seq<Run>, list: seq<Run>, c: seq<Run>)
    requires Ends(runs) && |c| <= |runs| && list != [] && Siblings(runs, list, c)
    ensures var n := |list| - 1;
      && |c| < |runs| && Siblings(runs, list[..n], c) && Descent(runs, c + [list[n]])
      && ForestLines(runs, list, c) == ForestLines(runs, list[..n], c) + TreeLines(runs, c + [list[n]])
  {
    NextSibling(runs, list, c, |list| - 1);
    assert list[..|list|] == list;
  }

  method RenderTree(runs: seq<Run>) returns (lines: seq<Line>)
    requires Ends(runs)
    ensures lines == SessionLines(runs)
  {
    var roots, children := BuildAdjacency(runs);
    var rootRuns := ByAge(roots);
    var out := new Lines();
    ChildrenAreSiblings(runs, []);
    PrintAll(runs, [], rootRuns, children, 0, out);
    assert [] + SessionLines(runs) == SessionLines(runs);
    return out.lines;
  }

  // ------------------------------------------------------------- what is printed

  /** A line at the depth of a descent that passes through the prefix. */
  ghost predicate Under(runs: seq<Run>, prefix: seq<Run>, l: Line) {
    exists c :: Descent(runs, c) && Last(c) == l.run && l.depth == |c| - 1 && prefix <= c
  }

  lemma {:induction false} UnderShorter(runs: seq<Run>, prefix: seq<Run>, r: Run, l: Line)
    requires Under(runs, prefix + [r], l)
    ensures Under(runs, prefix, l)
  {
    var c :| Descent(runs, c) && Last(c) == l.run && l.depth == |c| - 1 && prefix + [r] <= c;
    assert prefix <= prefix + [r];
  }

  lemma {:induction false} TreeSound(runs: seq<Run>, c: seq<Run>, l: Line)
    requires Ends(runs) && Descent(runs, c) && l in TreeLines(runs, c)
    ensures Under(runs, c, l)
    decreases |runs| - |c| + 1, 0
  {
    ChildrenAreSiblings(runs, c);
    if l != Line(|c| - 1, Last(c)) {
      var r := ForestSound(runs, ChildrenOf(runs, c), c, l);
      UnderShorter(runs, c, r, l);
    }
  }

  lemma {:induction false} ForestSound(runs: seq<Run>, list: seq<Run>, c: seq<Run>, l: Line) returns (r: Run)
    requires Ends(runs) && |c| <= |runs| && Siblings(runs, list, c) && l in ForestLines(runs, list, c)
    ensures r in list && Under(runs, c + [r], l)
    decreases |runs| - |c|, 1 + |list|
  {
    var n := |list| - 1;
    LastSibling(runs, list, c);
    if l in TreeLines(runs, c + [list[n]]) {
      r := list[n];
      TreeSound(runs, c + [r], l);
    } else {
      r := ForestSound(runs, list[..n], c, l);
    }
  }

  lemma {:induction false} TreeIsPart(runs: seq<Run>, list: seq<Run>, c: seq<Run>, r: Run, l: Line)
    requires Ends(runs) && |c| <= |runs| && Siblings(runs, list, c)
    requires r in list && l in TreeLines(runs, c + [r])
    ensures l in ForestLines(runs, list, c)
    decreases |list|
  {
    var n := |list| - 1;
    LastSibling(runs, list, c);
    if r != list[n] {
      TreeIsPart(runs, list[..n], c, r, l);
    }
  }

  lemma {:induction false} NextDown(runs: seq<Run>, c: seq<Run>, d: seq<Run>)
    requires Descent(runs, d) && c <= d && |c| < |d|
    ensures d[|c|] in ChildrenOf(runs, c) && c + [d[|c|]] <= d && Descent(runs, c + [d[|c|]])
  {
    var n := |c|;
    DescentPrefix(runs, d, n + 1);
    assert d[..n + 1] == c + [d[n]];
    IsWithParent(runs, if c == [] then None else Some(Last(c).id), d[n]);
    assert d[n] in multiset(ChildrenOf(runs, c));
  }

  lemma {:induction false} TreeComplete(runs: seq<Run>, c: seq<Run>, d: seq<Run>)
    requires Ends(runs) && Descent(runs, c) && Descent(runs, d) && c <= d
    ensures Line(|d| - 1, Last(d)) in TreeLines(runs, c)
    decreases |d| - |c|
  {
    if |c| == |d| {
      assert c == d;
    } else {
      var r := d[|c|];
      NextDown(runs, c, d);
      TreeComplete(runs, c + [r], d);
      ChildrenAreSiblings(runs, c);
      TreeIsPart(runs, ChildrenOf(runs, c), c, r, Line(|d| - 1, Last(d)));
    }
  }

  /** The report shows exactly the runs that lead up to a run without parent,
      indented by the number of runs on the way. */
  lemma {:induction false} SessionShows(runs: seq<Run>, l: Line)
    requires Ends(runs)
    ensures l in SessionLines(runs) <==> Under(runs, [], l)
  {
    ChildrenAreSiblings(runs, []);
    if l in SessionLines(runs) {
      var root := ForestSound(runs, ChildrenOf(runs, []), [], l);
      UnderShorter(runs, [], root, l);
    }
    if Under(runs, [], l) {
      var d :| Descent(runs, d) && Last(d) == l.run && l.depth == |d| - 1;
      NextDown(runs, [], d);
      TreeComplete(runs, [] + [d[0]], d);
      TreeIsPart(runs, ChildrenOf(runs, []), [], d[0], l);
    }
  }

  // ------------------------------------------------------------ each run once

  ghost predicate ShowsOnce(lines: seq<Line>) {
    forall i, j | 0 <= i < j < |lines| :: lines[i].run != lines[j].run
  }

  /** Children of one parent stand from the oldest to the youngest. */
  ghost predicate OldestFirst(lines: seq<Line>) {
    forall i, j | 0 <= i < j < |lines| && lines[i].run.parent == lines[j].run.parent ::
      lines[i].run.createdAt <= lines[j].run.createdAt
  }

  /** x may stand before y. */
  ghost predicate Before(x: Line, y: Line) {
    x.run != y.run && (x.run.parent == y.run.parent ==> x.run.createdAt <= y.run.createdAt)
  }

  ghost predicate InOrder(lines: seq<Line>) { forall i, j | 0 <= i < j < |lines| :: Before(lines[i], lines[j]) }

  lemma {:induction false} InOrderAppend(a: seq<Line>, b: seq<Line>)
    requires InOrder(a) && InOrder(b) && forall x, y | x in a && y in b :: Before(x, y)
    ensures InOrder(a + b)
  {
  }

  lemma {:induction false} SameFront(runs: seq<Run>, p: seq<Run>, q: seq<Run>)
    requires DistinctRuns(runs) && Descent(runs, p) && Descent(runs, q) && Last(p).parent == Last(q).parent
    ensures |p| == |q| && forall k | 0 <= k < |p| - 1 :: p[k] == q[k]
  {
    var m, n := |p| - 1, |q| - 1;
    AloneIffRoot(runs, p);
    AloneIffRoot(runs, q);
    if m > 0 {
      SameRun(runs, p[m - 1], q[n - 1]);
      DescentPrefix(runs, p, m);
      DescentPrefix(runs, q, n);
      OneDescent(runs, p[..m], q[..n]);
      assert forall k | 0 <= k < m :: p[k] == p[..m][k] == q[..n][k] == q[k];
    }
  }

  lemma {:induction false} SiblingTreesInOrder(runs: seq<Run>, c: seq<Run>, a: Run, b: Run, x: Line, y: Line)
    requires DistinctRuns(runs) && a != b && Older(a, b)
    requires Under(runs, c + [a], x) && Under(runs, c + [b], y)
    ensures Before(x, y)
  {
    var p :| Descent(runs, p) && Last(p) == x.run && x.depth == |p| - 1 && c + [a] <= p;
    var q :| Descent(runs, q) && Last(q) == y.run && y.depth == |q| - 1 && c + [b] <= q;
    assert p[|c|] == a && q[|c|] == b;
    if x.run == y.run {
      OneDescent(runs, p, q);
      assert false;
    }
    if x.run.parent == y.run.parent {
      SameFront(runs, p, q);
      assert |p| == |c| + 1;
    }
  }

  lemma {:induction false} RunBeforeItsTree(runs: seq<Run>, c: seq<Run>, r: Run, y: Line)
    requires DistinctRuns(runs) && Descent(runs, c) && Under(runs, c + [r], y)
    ensures Before(Line(|c| - 1, Last(c)), y)
  {
    var q :| Descent(runs, q) && Last(q) == y.run && y.depth == |q| - 1 && c + [r] <= q;
    if Last(c) == y.run {
      OneDescent(runs, c, q);
      assert false;
    }
    if Last(c).parent == y.run.parent {
      SameFront(runs, c, q);
      assert false;
    }
  }

  lemma {:induction false} TreeInOrder(runs: seq<Run>, c: seq<Run>)
    requires DistinctRuns(runs) && Ends(runs) && Descent(runs, c)
    ensures InOrder(TreeLines(runs, c))
    decreases |runs| - |c| + 1, 0
  {
    ChildrenAreSiblings(runs, c);
    var list := ChildrenOf(runs, c);
    ChildrenSorted(runs, c);
    ForestInOrder(runs, list, c);
    var top := Line(|c| - 1, Last(c));
    forall x, y | x in [top] && y in ForestLines(runs, list, c) ensures Before(x, y) {
      var r := ForestSound(runs, list, c, y);
      RunBeforeItsTree(runs, c, r, y);
    }
    InOrderAppend([top], ForestLines(runs, list, c));
  }

  lemma {:induction false} FrontBeforeLast(runs: seq<Run>, list: seq<Run>, c: seq<Run>, x: Line, y: Line)
    requires DistinctRuns(runs) && Ends(runs) && |c| < |runs| && list != [] && Distinct(list) && Sorted(Older, list)
    requires Siblings(runs, list[..|list| - 1], c) && Descent(runs, c + [list[|list| - 1]])
    requires x in ForestLines(runs, list[..|list| - 1], c) && y in TreeLines(runs, c + [list[|list| - 1]])
    ensures Before(x, y)
  {
    var n := |list| - 1;
    var a := ForestSound(runs, list[..n], c, x);
    TreeSound(runs, c + [list[n]], y);
    var i :| 0 <= i < n && list[i] == a;
    SiblingTreesInOrder(runs, c, a, list[n], x, y);
  }

  lemma {:induction false} ForestInOrder(runs: seq<Run>, list: seq<Run>, c: seq<Run>)
    requires DistinctRuns(runs) && Ends(runs) && |c| <= |runs| && Siblings(runs, list, c)
    requires Distinct(list) && Sorted(Older, list)
    ensures InOrder(ForestLines(runs, list, c))
    decreases |runs| - |c|, 1 + |list|
  {
    if list != [] {
      var n := |list| - 1;
      LastSibling(runs, list, c);
      ForestInOrder(runs, list[..n], c);
      TreeInOrder(runs, c + [list[n]]);
      var front, tree := ForestLines(runs, list[..n], c), TreeLines(runs, c + [list[n]]);
      forall x, y | x in front && y in tree ensures Before(x, y) {
        FrontBeforeLast(runs, list, c, x, y);
      }
      InOrderAppend(front, tree);
    }
  }

  lemma {:induction false} ChildrenSorted(runs: seq<Run>, c: seq<Run>)
    requires DistinctRuns(runs)
    ensures Distinct(ChildrenOf(runs, c)) && Sorted(Older, ChildrenOf(runs, c))
  {
    var list := WithParent(runs, if c == [] then None else Some(Last(c).id));
    FilterDistinct(runs, if c == [] then None else Some(Last(c).id));
    DistinctPermutation(list, ByAge(list));
    SortSorted(Older, list);
  }

  lemma {:induction false} FilterDistinct(runs: seq<Run>, parent: Option<string>)
    requires DistinctRuns(runs)
    ensures Distinct(WithParent(runs, parent))
  {
    if runs != [] {
      var n := |runs| - 1;
      FilterDistinct(runs[..n], parent);
      IsWithParent(runs[..n], parent, runs[n]);
      assert runs[n] !in runs[..n];
    }
  }

  /** With distinct ids every run is shown at most once, and siblings stand from
      the oldest to the youngest. */
  lemma {:induction false} SessionInOrder(runs: seq<Run>)
    requires DistinctRuns(runs)
    ensures Ends(runs) && ShowsOnce(SessionLines(runs)) && OldestFirst(SessionLines(runs))
  {
    DistinctRunsEnd(runs);
    ChildrenAreSiblings(runs, []);
    ChildrenSorted(runs, []);
    ForestInOrder(runs, ChildrenOf(runs, []), []);
  }

  // ------------------------------------------------------- the indentation is read back

  /** Line j is the nearest above line i that is indented less, and shows the
      parent of its run. */
  ghost predicate ParentAt(lines: seq<Line>, i: nat, j: nat) {
    && j < i < |lines| && lines[j].depth + 1 == lines[i].depth && lines[i].run.parent == Some(lines[j].run.id)
    && forall k | j < k < i :: lines[k].depth >= lines[i].depth
  }

  /** A line at the margin depth hangs under the given parent, any other under
      its parent above. */
  ghost predicate Placed(lines: seq<Line>, i: nat, depth: nat, parent: Option<string>) {
    && i < |lines| && lines[i].depth >= depth
    && if lines[i].depth == depth then lines[i].run.parent == parent else exists j :: ParentAt(lines, i, j)
  }

  /** Lines of trees that hang at one depth under one parent. */
  ghost predicate Nested(lines: seq<Line>, depth: nat, parent: Option<string>) {
    forall i: nat | i < |lines| :: Placed(lines, i, depth, parent)
  }

  lemma {:induction false} AtAppend(a: seq<Line>, b: seq<Line>, i: nat, j: nat)
    requires ParentAt(b, i, j)
    ensures ParentAt(a + b, |a| + i, |a| + j)
  {
    forall k | |a| + j < k < |a| + i ensures (a + b)[k].depth >= (a + b)[|a| + i].depth {
      assert (a + b)[k] == b[k - |a|];
    }
  }

  lemma {:induction false} AtPrefix(a: seq<Line>, b: seq<Line>, i: nat, j: nat)
    requires ParentAt(a, i, j)
    ensures ParentAt(a + b, i, j)
  {
  }

  lemma {:induction false} PlacedAppend(a: seq<Line>, b: seq<Line>, i: nat, depth: nat, parent: Option<string>)
    requires Placed(b, i, depth, parent)
    ensures Placed(a + b, |a| + i, depth, parent)
  {
    assert (a + b)[|a| + i] == b[i];
    if b[i].depth != depth {
      var j :| ParentAt(b, i, j);
      AtAppend(a, b, i, j);
    }
  }

  lemma {:induction false} PlacedPrefix(a: seq<Line>, b: seq<Line>, i: nat, depth: nat, parent: Option<string>)
    requires Placed(a, i, depth, parent)
    ensures Placed(a + b, i, depth, parent)
  {
    assert (a + b)[i] == a[i];
    if a[i].depth != depth {
      var j :| ParentAt(a, i, j);
      AtPrefix(a, b, i, j);
    }
  }

  lemma {:induction false} NestedAppend(a: seq<Line>, b: seq<Line>, depth: nat, parent: Option<string>)
    requires Nested(a, depth, parent) && Nested(b, depth, parent)
    ensures Nested(a + b, depth, parent)
  {
    forall i: nat | i < |a + b| ensures Placed(a + b, i, depth, parent) {
      if i < |a| {
        PlacedPrefix(a, b, i, depth, parent);
      } else {
        PlacedAppend(a, b, i - |a|, depth, parent);
      }
    }
  }

  lemma {:induction false} PlacedUnder(top: Line, below: seq<Line>, i: nat)
    requires Nested(below, top.depth + 1, Some(top.run.id)) && i < |below|
    ensures Placed([top] + below, i + 1, top.depth, top.run.parent)
  {
    var lines := [top] + below;
    assert Placed(below, i, top.depth + 1, Some(top.run.id));
    assert lines[i + 1] == below[i];
    if below[i].depth == top.depth + 1 {
      forall k | 0 < k < i + 1 ensures lines[k].depth >= lines[i + 1].depth {
        assert lines[k] == below[k - 1] && Placed(below, k - 1, top.depth + 1, Some(top.run.id));
      }
      assert ParentAt(lines, i + 1, 0);
    } else {
      PlacedAppend([top], below, i, top.depth + 1, Some(top.run.id));
    }
  }

  lemma {:induction false} NestedUnder(top: Line, below: seq<Line>)
    requires Nested(below, top.depth + 1, Some(top.run.id))
    ensures Nested([top] + below, top.depth, top.run.parent)
  {
    forall i: nat | i < |[top] + below| ensures Placed([top] + below, i, top.depth, top.run.parent) {
      if i > 0 {
        PlacedUnder(top, below, i - 1);
      }
    }
  }

  lemma {:induction false} TreeNested(runs: seq<Run>, c: seq<Run>)
    requires Ends(runs) && Descent(runs, c)
    ensures Nested(TreeLines(runs, c), |c| - 1, Last(c).parent)
    decreases |runs| - |c| + 1, 0
  {
    ChildrenAreSiblings(runs, c);
    ForestNested(runs, ChildrenOf(runs, c), c, Some(Last(c).id));
    NestedUnder(Line(|c| - 1, Last(c)), ForestLines(runs, ChildrenOf(runs, c), c));
  }

  lemma {:induction false} TreeNestedAt(runs: seq<Run>, c: seq<Run>, r: Run, parent: Option<string>)
    requires Ends(runs) && Descent(runs, c + [r]) && parent == if c == [] then None else Some(Last(c).id)
    ensures Nested(TreeLines(runs, c + [r]), |c|, parent)
    decreases |runs| - |c|, 1
  {
    var d := c + [r];
    assert |c| > 0 ==> d[|c|].parent == Some(d[|c| - 1].id);
    TreeNested(runs, d);
  }

  lemma {:induction false} ForestNested(runs: seq<Run>, list: seq<Run>, c: seq<Run>, parent: Option<string>)
    requires Ends(runs) && |c| <= |runs| && Siblings(runs, list, c)
    requires parent == if c == [] then None else Some(Last(c).id)
    ensures Nested(ForestLines(runs, list, c), |c|, parent)
    decreases |runs| - |c|, 1 + |list|
  {
    if list != [] {
      var n := |list| - 1;
      LastSibling(runs, list, c);
      ForestNested(runs, list[..n], c, parent);
      TreeNestedAt(runs, c, list[n], parent);
      NestedAppend(ForestLines(runs, list[..n], c), TreeLines(runs, c + [list[n]]), |c|, parent);
    }
  }

  /** The indentation tells the lineage: a line at the margin is a run without
      parent, and for any other the nearest line above that is indented less is
      its parent, by one step. */
  lemma {:induction false} IndentationShowsParents(runs: seq<Run>)
    requires Ends(runs)
    ensures Nested(SessionLines(runs), 0, None)
  {
    ChildrenAreSiblings(runs, []);
    ForestNested(runs, ChildrenOf(runs, []), [], None);
  }
}
