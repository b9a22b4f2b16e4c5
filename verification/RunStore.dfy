/** The run log directory: runs, their parent links, deletion and pruning. */
module RunStore {
  import opened Json
  import opened Ordering

  datatype Manifest = Manifest(runId: string, parentRunId: Option<string>)

  /** One run directory; the manifest is absent when run.json is missing or
      unreadable.  The start time is an opaque number. */
  datatype RunDir = RunDir(manifest: Option<Manifest>, size: nat, startTime: int)

  /** Run directories by folder name. */
  type Dirs = map<string, RunDir>

  /** A gathered run: its id, its folder and its size. */
  datatype Item = Item(id: string, path: string, size: nat)

  datatype RunError = NotInLogDir | HasDescendantRuns(id: string) | NotConfirmed

  datatype DeleteResult = Deleted(run: string, reclaimed: nat) | DeleteFailed(error: RunError)

  datatype PruneResult = Pruned(runs: seq<string>, reclaimed: nat, dryRun: bool) | PruneFailed(error: RunError)

  // ------------------------------------------------------------------- lineage

  predicate HasParent(dirs: Dirs, path: string, runId: string) {
    path in dirs && dirs[path].manifest.Some? && dirs[path].manifest.value.parentRunId == Some(runId)
  }

  /** The id a run is gathered under: an empty manifest id gives way to the folder. */
  function GatheredId(dirs: Dirs, path: string): string
    requires path in dirs && dirs[path].manifest.Some?
  {
    if dirs[path].manifest.value.runId != "" then dirs[path].manifest.value.runId else path
  }

  /** A readable manifest that names the run as its parent. */
  predicate NamesParent(m: Option<Manifest>, runId: string) {
    match m case None => false case Some(k) => k.parentRunId == Some(runId)
  }

  /** The id written in a manifest, and the folder for one that is empty. */
  predicate NamesItsRun(m: Manifest, path: string, id: string) {
    (m.runId == "" && id == path) || (m.runId != "" && id == m.runId)
  }

  /** `path` lies n parent links below the run id. */
  ghost predicate Below(dirs: Dirs, runId: string, path: string, n: nat)
    decreases n
  {
    n > 0 && (if n == 1 then HasParent(dirs, path, runId)
              else exists p :: IsRun(dirs, p) && HasParent(dirs, path, dirs[p].manifest.value.runId)
                            && Below(dirs, runId, p, n - 1))
  }

  predicate IsRun(dirs: Dirs, path: string) { path in dirs && dirs[path].manifest.Some? }

  ghost predicate Descends(dirs: Dirs, runId: string, path: string) {
    exists n: nat :: Below(dirs, runId, path, n)
  }

  /** The runs below a run id are gathered under pairwise different ids. */
  ghost predicate DistinctBelow(dirs: Dirs, runId: string) {
    forall p, q | IsRun(dirs, p) && IsRun(dirs, q) && Descends(dirs, runId, p) && Descends(dirs, runId, q) && p != q ::
      GatheredId(dirs, p) != GatheredId(dirs, q)
  }

  /** The id itself, or the id of a run below it. */
  ghost predicate Reached(dirs: Dirs, root: string, runId: string) {
    runId == root || exists q :: IsRun(dirs, q) && dirs[q].manifest.value.runId == runId && Descends(dirs, root, q)
  }

  /** Every parent id names an existing run. */
  ghost predicate Integrity(dirs: Dirs) {
    forall path, id | HasParent(dirs, path, id) :: exists p :: IsRun(dirs, p) && dirs[p].manifest.value.runId == id
  }

  // ---------------------------------------------------------- gathered items

  function Paths(items: seq<Item>): set<string> { set i | i in items :: i.path }

  /** Items describe existing runs, each id once. */
  ghost predicate ValidItems(dirs: Dirs, items: seq<Item>) {
    && (forall i | i in items ::
          IsRun(dirs, i.path) && NamesItsRun(dirs[i.path].manifest.value, i.path, i.id) && i.size == dirs[i.path].size)
    && (forall i, j | 0 <= i < j < |items| :: items[i].id != items[j].id)
  }

  lemma {:induction false} ItemsFit(dirs: Dirs, items: seq<Item>)
    requires ValidItems(dirs, items)
    ensures |items| == |Paths(items)| <= |dirs|
  {
    PathsCount(items);
    assert Paths(items) <= dirs.Keys;
    SubsetSize(Paths(items), dirs.Keys);
  }

  lemma {:induction false} PathsCount(items: seq<Item>)
    requires forall i, j | 0 <= i < j < |items| :: items[i].path != items[j].path
    ensures |Paths(items)| == |items|
  {
    if items != [] {
      var n := |items| - 1;
      PathsCount(items[..n]);
      assert Paths(items) == Paths(items[..n]) + {items[n].path};
    }
  }

  lemma {:induction false} SubsetSize(a: set<string>, b: set<string>)
    requires a <= b
    ensures |a| <= |b|
  {
    assert b == a + (b - a);
  }

  /** The children of a run id are all among the items. */
  ghost predicate ChildrenIn(dirs: Dirs, runId: string, items: seq<Item>) {
    forall p | HasParent(dirs, p, runId) :: p in Paths(items)
  }

  ghost predicate AllBelow(dirs: Dirs, root: string, items: seq<Item>) {
    forall i | i in items :: Descends(dirs, root, i.path)
  }

  /** From position n on, the children of every gathered run are gathered too. */
  ghost predicate ClosedFrom(dirs: Dirs, items: seq<Item>, n: nat) {
    forall k | n <= k < |items| ::
      IsRun(dirs, items[k].path) && ChildrenIn(dirs, dirs[items[k].path].manifest.value.runId, items)
  }

  /** The total size of a set of directories. */
  ghost function TotalSize(dirs: Dirs, paths: set<string>): nat
    requires paths <= dirs.Keys
  {
    if paths == {} then 0 else
    var p :| p in paths;
    dirs[p].size + TotalSize(dirs, paths - {p})
  }

  lemma {:induction false} TotalSizeWithout(dirs: Dirs, paths: set<string>, p: string)
    requires p in paths && paths <= dirs.Keys
    ensures TotalSize(dirs, paths) == dirs[p].size + TotalSize(dirs, paths - {p})
    decreases |paths|
  {
    var q :| q in paths && TotalSize(dirs, paths) == dirs[q].size + TotalSize(dirs, paths - {q});
    if p != q {
      TotalSizeWithout(dirs, paths - {q}, p);
      TotalSizeWithout(dirs, paths - {p}, q);
      assert paths - {q} - {p} == paths - {p} - {q};
    }
  }

  /** The vector that gathering pushes to. */
  class Found {
    var items: seq<Item>

    constructor ()
      ensures items == []
    {
      items := [];
    }

    predicate HasId(id: string)
      reads this
    {
      exists i | i in items :: i.id == id
    }

    method Push(item: Item)
      modifies this
      ensures items == old(items) + [item]
    {
      items := items + [item];
    }
  }

  // ----------------------------------------------------------------- the store

  class RunStore {
    var dirs: Dirs

    constructor (initial: Dirs)
      ensures dirs == initial
    {
      dirs := initial;
    }

    /** The file system lists the directory in no particular order. */
    method ReadDir() returns (entries: seq<string>)
      ensures Enumerates(entries, dirs.Keys)
    {
      entries := [];
      var rest := dirs.Keys;
      while rest != {}
        invariant rest <= dirs.Keys && Enumerates(entries, dirs.Keys - rest)
        decreases |rest|
      {
        var k :| k in rest;
        entries := entries + [k];
        rest := rest - {k};
      }
    }

    method HasDescendants(runId: string) returns (found: bool)
      ensures found <==> exists p :: HasParent(dirs, p, runId)
      ensures found <==> exists p :: p in dirs && NamesParent(dirs[p].manifest, runId)
    {
      var entries := ReadDir();
      for i := 0 to |entries|
        invariant forall k | 0 <= k < i :: !HasParent(dirs, entries[k], runId)
      {
        if HasParent(dirs, entries[i], runId) {
          return true;
        }
      }
      assert forall p | p in dirs :: !HasParent(dirs, p, runId);
      return false;
    }

    /** Terminates on cyclic parent links: every call below another one is made
        with one more run in the list.  `root` is the id the gathering started
        from. */
    method GatherDescendants(runId: string, out: Found, ghost root: string)
      requires ValidItems(dirs, out.items) && AllBelow(dirs, root, out.items) && Reached(dirs, root, runId)
      modifies out
      ensures ValidItems(dirs, out.items) && AllBelow(dirs, root, out.items)
      ensures old(out.items) <= out.items
      ensures DistinctBelow(dirs, root) ==>
        ClosedFrom(dirs, out.items, |old(out.items)|) && ChildrenIn(dirs, runId, out.items)
      decreases |dirs| - |out.items|
    {
      ItemsFit(dirs, out.items);
      var entries := ReadDir();
      for i := 0 to |entries|
        invariant ValidItems(dirs, out.items) && AllBelow(dirs, root, out.items) && old(out.items) <= out.items
        invariant DistinctBelow(dirs, root) ==>
          ClosedFrom(dirs, out.items, |old(out.items)|) && ChildrenSeen(dirs, runId, entries, i, out.items)
      {
        var path := entries[i];
        if HasParent(dirs, path, runId) {
          ReachedChild(dirs, root, runId, path);
          ghost var before := out.items;
          GatherChild(path, out, root);
          if DistinctBelow(dirs, root) {
            StillSeen(dirs, runId, entries, i, before, out.items);
            StillClosed(dirs, before, out.items, |old(out.items)|);
          }
        }
      }
    }

    /** One child: pushed with everything below it, unless its id is listed. */
    method GatherChild(path: string, out: Found, ghost root: string)
      requires IsRun(dirs, path) && Descends(dirs, root, path)
      requires ValidItems(dirs, out.items) && AllBelow(dirs, root, out.items)
      modifies out
      ensures ValidItems(dirs, out.items) && AllBelow(dirs, root, out.items)
      ensures old(out.items) <= out.items
      ensures DistinctBelow(dirs, root) ==> path in Paths(out.items) && ClosedFrom(dirs, out.items, |old(out.items)|)
      decreases |dirs| - |out.items|, 0
    {
      ItemsFit(dirs, out.items);
      var child := dirs[path].manifest.value.runId;
      var id := GatheredId(dirs, path);
      if out.HasId(id) {
        SameIdSamePath(dirs, root, out.items, path);
      } else {
        out.Push(Item(id, path, dirs[path].size));
        ghost var pushed := out.items;
        ItemsFit(dirs, pushed);
        assert Reached(dirs, root, child);
        GatherDescendants(child, out, root);
        if DistinctBelow(dirs, root) {
          PushedIsClosed(dirs, pushed, out.items);
        }
      }
    }

    /** `fs::remove_dir_all`, which fails on a directory that is gone. */
    method RemoveDir(path: string)
      requires path in dirs
      modifies this
      ensures dirs == old(dirs) - {path}
    {
      dirs := dirs - {path};
    }

    /** Removes the listed directories one by one, each once. */
    method RemoveDirs(list: seq<Item>)
      requires ListedOnce(dirs, list)
      modifies this
      ensures dirs == old(dirs) - Paths(list)
    {
      for i := 0 to |list|
        invariant dirs == old(dirs) - Paths(list[..i])
      {
        assert Paths(list[..i + 1]) == Paths(list[..i]) + {list[i].path};
        NotListedBefore(old(dirs), list, i);
        RemoveDir(list[i].path);
      }
      assert list[..|list|] == list;
    }

    /** The runs below a manifest's id, added to the list unless already there. */
    method AddDescendants(list: seq<Item>, path: string) returns (longer: seq<Item>, ghost found: set<string>)
      requires IsRun(dirs, path) && ListedOnce(dirs, list)
      ensures ListedOnce(dirs, longer) && |longer| >= |list|
      ensures Paths(longer) == Paths(list) + found && found <= DescendantSet(dirs, path)
      ensures OncePerId(dirs, found)
      ensures found == DescendantSet(dirs, path) <==> DistinctBelow(dirs, dirs[path].manifest.value.runId)
    {
      var items := new Found();
      var runId := dirs[path].manifest.value.runId;
      GatherDescendants(runId, items, runId);
      longer := AppendNew(dirs, list, items.items);
      found := Paths(items.items);
      FoundIsDescendants(dirs, path, items.items);
      ItemsOncePerId(dirs, items.items);
    }

    /** Without cascading, a run with children stays. */
    method IsBlocked(path: string, cascade: bool) returns (blocked: bool)
      requires path in dirs
      ensures blocked <==> !cascade && HasChildren(dirs, path)
    {
      var manifest := dirs[path].manifest;
      blocked := false;
      if manifest.Some? && !cascade {
        blocked := HasDescendants(manifest.value.runId);
      }
    }

    /** The directory with, when cascading, everything gathered below it. */
    method RunsToDelete(path: string, id: string, cascade: bool, list: seq<Item>)
      returns (longer: seq<Item>, ghost found: set<string>)
      requires path in dirs && ListedOnce(dirs, list) && id == ActualRunId(dirs, path)
      ensures ListedOnce(dirs, longer) && longer != []
      ensures Paths(longer) == Paths(list) + {path} + found && found <= RemovalSet(dirs, path, cascade)
      ensures OncePerId(dirs, found)
      ensures CascadesWhole(dirs, path, cascade) ==> {path} + found == RemovalSet(dirs, path, cascade)
    {
      longer := AppendNew(dirs, list, [Item(id, path, dirs[path].size)]);
      found := {};
      assert Paths([Item(id, path, dirs[path].size)]) == {path};
      assert path in Paths(longer);
      if cascade && dirs[path].manifest.Some? {
        longer, found := AddDescendants(longer, path);
      }
    }

    method RemovalList(path: string, id: string, cascade: bool) returns (list: seq<Item>, total: nat)
      requires path in dirs && id == ActualRunId(dirs, path)
      ensures ListedOnce(dirs, list) && total == TotalSize(dirs, Paths(list))
      ensures path in Paths(list) && Paths(list) <= RemovalSet(dirs, path, cascade)
      ensures CascadesWhole(dirs, path, cascade) ==> Paths(list) == RemovalSet(dirs, path, cascade)
      ensures Paths(list) == RemovalSet(dirs, path, cascade) ==> DistinctApart(dirs, path, cascade)
    {
      ghost var found;
      list, found := RunsToDelete(path, id, cascade, []);
      total := SumSizes(list);
      assert Paths([]) == {};
      SumIsTotal(dirs, list);
    }

    /** `confirm` is the answer of the interaction provider, None without one;
        `removed` is what went. */
    method DeleteRun(target: string, skipConfirm: bool, cascade: bool, confirm: Option<bool>)
      returns (r: DeleteResult, ghost removed: set<string>)
      modifies this
      ensures r.Deleted? <==>
        && target in old(dirs)
        && (cascade || !HasChildren(old(dirs), target))
        && (skipConfirm || confirm == Some(true))
      ensures r.DeleteFailed? ==> dirs == old(dirs) && r.error == DeleteError(dirs, target, cascade)
      ensures r.Deleted? ==>
        && dirs == old(dirs) - removed
        && r.run == (match old(dirs)[target].manifest case Some(m) => m.runId case None => target)
        && target in removed && removed <= RemovalSet(old(dirs), target, cascade)
        && r.reclaimed == TotalSize(old(dirs), removed)
      ensures r.Deleted? && CascadesWhole(old(dirs), target, cascade) ==>
        && removed == RemovalSet(old(dirs), target, cascade)
        && (Integrity(old(dirs)) ==> Integrity(dirs))
      ensures r.Deleted? && removed == RemovalSet(old(dirs), target, cascade) ==>
        DistinctApart(old(dirs), target, cascade)
    {
      removed := {};
      if target !in dirs {
        return DeleteFailed(NotInLogDir), removed;
      }
      var actualRunId := ActualRunId(dirs, target);
      var blocked := IsBlocked(target, cascade);
      if blocked {
        return DeleteFailed(HasDescendantRuns(actualRunId)), removed;
      }
      var list, total := RemovalList(target, actualRunId, cascade);
      if !skipConfirm && confirm != Some(true) {
        return DeleteFailed(NotConfirmed), removed;
      }
      DeleteKeepsIntegrity(dirs, target, cascade);
      RemoveDirs(list);
      return Deleted(actualRunId, total), Paths(list);
    }

    /** The walk over the log directory; stops at a run that may not go alone. */
    method RunsToPrune(threshold: int, cascade: bool) returns (list: seq<Item>, blocked: Option<string>)
      ensures ListedOnce(dirs, list)
      ensures blocked.Some? <==> !cascade && exists p :: Expired(dirs, threshold, p) && HasChildren(dirs, p)
      ensures blocked.None? ==>
        && (list == [] <==> !exists p :: Expired(dirs, threshold, p))
        && ExpiredSet(dirs, threshold) <= Paths(list) <= PruneSet(dirs, threshold, cascade)
        && (PrunesWhole(dirs, threshold, cascade) ==> Paths(list) == PruneSet(dirs, threshold, cascade))
    {
      var entries := ReadDir();
      list, blocked := [], None;
      for i := 0 to |entries|
        invariant ListedOnce(dirs, list)
        invariant list == [] <==> NoneExpired(dirs, threshold, entries, i)
        invariant !cascade ==> NoneBlocked(dirs, threshold, entries, i)
        invariant Collected(dirs, threshold, cascade, entries[..i], Paths(list))
      {
        var path := entries[i];
        PrunedFromStep(dirs, threshold, cascade, entries, i);
        if dirs[path].startTime < threshold {
          var actualRunId := ActualRunId(dirs, path);
          var isBlocked := IsBlocked(path, cascade);
          if isBlocked {
            assert Expired(dirs, threshold, path) && HasChildren(dirs, path);
            blocked := Some(actualRunId);
            return;
          }
          ghost var found;
          ghost var before := Paths(list);
          list, found := RunsToDelete(path, actualRunId, cascade, list);
          CollectedMore(dirs, threshold, cascade, entries, i, before, found);
        } else {
          CollectedSame(dirs, threshold, cascade, entries, i, Paths(list));
        }
      }
      assert entries[..|entries|] == entries;
      CollectedAll(dirs, threshold, cascade, entries, Paths(list));
      WholeDirectory(dirs, threshold, entries);
    }

    /** Every directory that started before the threshold goes; a dry run only
        reports.  `removed` is what went, or would have gone. */
    method PruneRuns(threshold: int, dryRun: bool, skipConfirm: bool, cascade: bool, confirm: Option<bool>)
      returns (r: PruneResult, ghost removed: set<string>)
      modifies this
      ensures r.PruneFailed? ==> dirs == old(dirs) && r.error != NotInLogDir
      ensures r.PruneFailed? && r.error.HasDescendantRuns? <==>
        !cascade && exists p :: Expired(old(dirs), threshold, p) && HasChildren(old(dirs), p)
      ensures r == PruneFailed(NotConfirmed) <==>
        && !dryRun && !skipConfirm && confirm != Some(true)
        && (exists p :: Expired(old(dirs), threshold, p))
        && (cascade || forall p | Expired(old(dirs), threshold, p) :: !HasChildren(old(dirs), p))
      ensures r.Pruned? ==>
        && ExpiredSet(old(dirs), threshold) <= removed <= PruneSet(old(dirs), threshold, cascade)
        && dirs == (if dryRun then old(dirs) else old(dirs) - removed)
        && Reports(old(dirs), r.runs, removed) && r.reclaimed == TotalSize(old(dirs), removed)
        && r.dryRun == dryRun
      ensures r.Pruned? && PrunesWhole(old(dirs), threshold, cascade) ==>
        && removed == PruneSet(old(dirs), threshold, cascade)
        && (Integrity(old(dirs)) ==> Integrity(dirs))
    {
      removed := {};
      var list, blocked := RunsToPrune(threshold, cascade);
      if blocked.Some? {
        return PruneFailed(HasDescendantRuns(blocked.value)), removed;
      }
      ListReports(dirs, list);
      SumIsTotal(dirs, list);
      PruneKeepsIntegrity(dirs, threshold, cascade);
      if list == [] {
        assert Paths(list) == {};
        return Pruned([], 0, dryRun), removed;
      }
      if !dryRun && !skipConfirm && confirm != Some(true) {
        return PruneFailed(NotConfirmed), removed;
      }
      if !dryRun {
        RemoveDirs(list);
      }
      return Pruned(Ids(list), SumSizes(list), dryRun), Paths(list);
    }
  }

  // -------------------------------------------------------------- lists of runs

  /** Why a delete is refused; a delete that nothing else refuses was not confirmed. */
  ghost function DeleteError(dirs: Dirs, target: string, cascade: bool): RunError {
    if target !in dirs then NotInLogDir
    else if !cascade && HasChildren(dirs, target) then HasDescendantRuns(ActualRunId(dirs, target))
    else NotConfirmed
  }

  ghost predicate NoneExpired(dirs: Dirs, threshold: int, entries: seq<string>, n: nat)
    requires n <= |entries|
  {
    forall k | 0 <= k < n :: !Expired(dirs, threshold, entries[k])
  }

  ghost predicate NoneBlocked(dirs: Dirs, threshold: int, entries: seq<string>, n: nat)
    requires n <= |entries|
  {
    forall k | 0 <= k < n && Expired(dirs, threshold, entries[k]) :: !HasChildren(dirs, entries[k])
  }

  lemma {:induction false} WholeDirectory(dirs: Dirs, threshold: int, entries: seq<string>)
    requires Enumerates(entries, dirs.Keys)
    ensures NoneExpired(dirs, threshold, entries, |entries|) <==> !exists p :: Expired(dirs, threshold, p)
    ensures NoneBlocked(dirs, threshold, entries, |entries|) <==>
      !exists p :: Expired(dirs, threshold, p) && HasChildren(dirs, p)
  {
    forall p | Expired(dirs, threshold, p) ensures exists k :: 0 <= k < |entries| && entries[k] == p {
      assert p in entries;
    }
    forall k | 0 <= k < |entries| ensures entries[k] in entries {
    }
  }

  function ActualRunId(dirs: Dirs, path: string): string
    requires path in dirs
  {
    if dirs[path].manifest.Some? then dirs[path].manifest.value.runId else path
  }

  function Ids(list: seq<Item>): seq<string> {
    seq(|list|, i requires 0 <= i < |list| => list[i].id)
  }

  function SumSizes(list: seq<Item>): nat {
    if list == [] then 0 else SumSizes(list[..|list| - 1]) + list[|list| - 1].size
  }

  /** The id a directory goes by in a report: its manifest's, or the one it was
      gathered under. */
  ghost predicate ReportedAs(dirs: Dirs, path: string, id: string) {
    && path in dirs
    && match dirs[path].manifest
       case None => id == path
       case Some(m) => id == m.runId || NamesItsRun(m, path, id)
  }

  ghost predicate Describes(dirs: Dirs, i: Item) {
    i.path in dirs && i.size == dirs[i.path].size && ReportedAs(dirs, i.path, i.id)
  }

  /** The report names every removed directory once, and nothing else. */
  ghost predicate Reports(dirs: Dirs, runs: seq<string>, removed: set<string>) {
    exists order: seq<string> :: Enumerates(order, removed) && |order| == |runs|
      && forall k | 0 <= k < |runs| :: ReportedAs(dirs, order[k], runs[k])
  }

  lemma {:induction false} ListReports(dirs: Dirs, list: seq<Item>)
    requires ListedOnce(dirs, list)
    ensures Reports(dirs, Ids(list), Paths(list))
  {
    var order := seq(|list|, i requires 0 <= i < |list| => list[i].path);
    forall p ensures p in order <==> p in Paths(list) {
      if p in Paths(list) {
        var i :| i in list && i.path == p;
        var k :| 0 <= k < |list| && list[k] == i;
        assert order[k] == p;
      }
    }
    assert Enumerates(order, Paths(list));
    forall k | 0 <= k < |list| ensures ReportedAs(dirs, order[k], Ids(list)[k]) {
      assert list[k] in list && Describes(dirs, list[k]);
    }
  }

  lemma {:induction false} NotListedBefore(dirs: Dirs, list: seq<Item>, i: nat)
    requires ListedOnce(dirs, list) && i < |list|
    ensures list[i].path in dirs && list[i].path !in Paths(list[..i])
  {
    assert list[i] in list;
  }

  /** No directory is listed twice. */
  ghost predicate ListedOnce(dirs: Dirs, list: seq<Item>) {
    && (forall i | i in list :: Describes(dirs, i))
    && (forall i, j | 0 <= i < j < |list| :: list[i].path != list[j].path)
  }

  lemma {:induction false} SumIsTotal(dirs: Dirs, list: seq<Item>)
    requires ListedOnce(dirs, list)
    ensures Paths(list) <= dirs.Keys && SumSizes(list) == TotalSize(dirs, Paths(list))
  {
    if list != [] {
      var n := |list| - 1;
      SumIsTotal(dirs, list[..n]);
      assert Paths(list) == Paths(list[..n]) + {list[n].path};
      TotalSizeWithout(dirs, Paths(list), list[n].path);
      assert Paths(list) - {list[n].path} == Paths(list[..n]);
    }
  }

  method AppendNew(ghost dirs: Dirs, list: seq<Item>, more: seq<Item>) returns (longer: seq<Item>)
    requires ListedOnce(dirs, list)
    requires forall i | i in more :: Describes(dirs, i)
    ensures ListedOnce(dirs, longer) && Paths(longer) == Paths(list) + Paths(more) && |longer| >= |list|
  {
    longer := list;
    for k := 0 to |more|
      invariant ListedOnce(dirs, longer) && Paths(longer) == Paths(list) + Paths(more[..k]) && |longer| >= |list|
    {
      assert Paths(more[..k + 1]) == Paths(more[..k]) + {more[k].path};
      if !exists i | i in longer :: i.path == more[k].path {
        assert Paths(longer + [more[k]]) == Paths(longer) + {more[k].path};
        longer := longer + [more[k]];
      } else {
        assert more[k].path in Paths(longer);
      }
    }
    assert more[..|more|] == more;
  }

  // ------------------------------------------------------------- what is removed

  ghost predicate HasChildren(dirs: Dirs, path: string) {
    IsRun(dirs, path) && exists p :: HasParent(dirs, p, dirs[path].manifest.value.runId)
  }

  ghost function DescendantSet(dirs: Dirs, path: string): set<string>
    requires IsRun(dirs, path)
  {
    set p | p in dirs && Descends(dirs, dirs[path].manifest.value.runId, p)
  }

  /** A directory and, if it has a manifest, everything that descends from it. */
  ghost function CascadeSet(dirs: Dirs, path: string): set<string> {
    {path} + (if IsRun(dirs, path) then DescendantSet(dirs, path) else {})
  }

  /** No two runs below the directory share an id, so a cascade reaches all. */
  ghost predicate CascadesWhole(dirs: Dirs, path: string, cascade: bool) {
    cascade && IsRun(dirs, path) ==> DistinctBelow(dirs, dirs[path].manifest.value.runId)
  }

  /** The same but for the directory itself, which a cyclic log has below it. */
  ghost predicate DistinctApart(dirs: Dirs, path: string, cascade: bool) {
    cascade && IsRun(dirs, path) ==> OncePerId(dirs, DescendantSet(dirs, path) - {path})
  }

  ghost predicate OncePerId(dirs: Dirs, paths: set<string>) {
    forall p, q | p in paths && q in paths && IsRun(dirs, p) && IsRun(dirs, q) && p != q ::
      GatheredId(dirs, p) != GatheredId(dirs, q)
  }

  /** Unless a run is its own ancestor, a cascade from it takes everything below
      exactly when the ids there are distinct. */
  lemma {:induction false} ApartIsWhole(dirs: Dirs, path: string, cascade: bool)
    requires IsRun(dirs, path) && !Descends(dirs, dirs[path].manifest.value.runId, path)
    ensures DistinctApart(dirs, path, cascade) <==> CascadesWhole(dirs, path, cascade)
  {
    if DistinctApart(dirs, path, cascade) && cascade {
      var runId := dirs[path].manifest.value.runId;
      forall p, q | IsRun(dirs, p) && IsRun(dirs, q) && Descends(dirs, runId, p) && Descends(dirs, runId, q) && p != q
        ensures GatheredId(dirs, p) != GatheredId(dirs, q)
      {
        assert p in DescendantSet(dirs, path) - {path} && q in DescendantSet(dirs, path) - {path};
      }
    }
  }

  lemma {:induction false} ItemsOncePerId(dirs: Dirs, items: seq<Item>)
    requires ValidItems(dirs, items)
    ensures OncePerId(dirs, Paths(items))
  {
    forall p, q | p in Paths(items) && q in Paths(items) && IsRun(dirs, p) && IsRun(dirs, q) && p != q
      ensures GatheredId(dirs, p) != GatheredId(dirs, q)
    {
      if GatheredId(dirs, p) == GatheredId(dirs, q) {
        SharedIdOnce(dirs, items, p, q);
      }
    }
  }

  ghost function RemovalSet(dirs: Dirs, path: string, cascade: bool): (r: set<string>)
    requires path in dirs
    ensures r <= dirs.Keys
  {
    if cascade then CascadeSet(dirs, path) else {path}
  }

  ghost predicate Expired(dirs: Dirs, threshold: int, path: string) {
    path in dirs && dirs[path].startTime < threshold
  }

  ghost function PrunedFrom(dirs: Dirs, threshold: int, cascade: bool, entries: seq<string>): (r: set<string>)
    ensures r <= dirs.Keys
  {
    if entries == [] then {} else
    var n := |entries| - 1;
    PrunedFrom(dirs, threshold, cascade, entries[..n]) +
    (if Expired(dirs, threshold, entries[n]) then RemovalSet(dirs, entries[n], cascade) else {})
  }

  ghost function PruneSet(dirs: Dirs, threshold: int, cascade: bool): set<string> {
    set p, q | q in dirs && p in dirs && Expired(dirs, threshold, q) && p in RemovalSet(dirs, q, cascade) :: p
  }

  ghost function ExpiredSet(dirs: Dirs, threshold: int): set<string> {
    set p | p in dirs && Expired(dirs, threshold, p)
  }

  ghost predicate PrunesWhole(dirs: Dirs, threshold: int, cascade: bool) {
    forall p | Expired(dirs, threshold, p) :: CascadesWhole(dirs, p, cascade)
  }

  /** What the walk over some entries has collected. */
  ghost predicate Collected(dirs: Dirs, threshold: int, cascade: bool, entries: seq<string>, paths: set<string>) {
    && (forall e | e in entries && Expired(dirs, threshold, e) :: e in paths)
    && paths <= PrunedFrom(dirs, threshold, cascade, entries)
    && (PrunesWhole(dirs, threshold, cascade) ==> paths == PrunedFrom(dirs, threshold, cascade, entries))
  }

  lemma {:induction false} CollectedSame(dirs: Dirs, threshold: int, cascade: bool, entries: seq<string>, i: nat, paths: set<string>)
    requires i < |entries| && Collected(dirs, threshold, cascade, entries[..i], paths)
    requires !Expired(dirs, threshold, entries[i])
    ensures Collected(dirs, threshold, cascade, entries[..i + 1], paths)
  {
    PrunedFromStep(dirs, threshold, cascade, entries, i);
    assert forall e :: e in entries[..i + 1] <==> e in entries[..i] || e == entries[i];
  }

  lemma {:induction false} CollectedMore(dirs: Dirs, threshold: int, cascade: bool, entries: seq<string>, i: nat,
                                         paths: set<string>, found: set<string>)
    requires i < |entries| && Collected(dirs, threshold, cascade, entries[..i], paths)
    requires Expired(dirs, threshold, entries[i]) && found <= RemovalSet(dirs, entries[i], cascade)
    requires CascadesWhole(dirs, entries[i], cascade) ==> {entries[i]} + found == RemovalSet(dirs, entries[i], cascade)
    ensures Collected(dirs, threshold, cascade, entries[..i + 1], paths + {entries[i]} + found)
  {
    PrunedFromStep(dirs, threshold, cascade, entries, i);
    assert forall e :: e in entries[..i + 1] <==> e in entries[..i] || e == entries[i];
  }

  lemma {:induction false} CollectedAll(dirs: Dirs, threshold: int, cascade: bool, entries: seq<string>, paths: set<string>)
    requires Enumerates(entries, dirs.Keys) && Collected(dirs, threshold, cascade, entries, paths)
    ensures ExpiredSet(dirs, threshold) <= paths <= PruneSet(dirs, threshold, cascade)
    ensures PrunesWhole(dirs, threshold, cascade) ==> paths == PruneSet(dirs, threshold, cascade)
  {
    PrunedFromAll(dirs, threshold, cascade, entries);
    assert PrunedFrom(dirs, threshold, cascade, entries) == PruneSet(dirs, threshold, cascade);
  }

  lemma {:induction false} PathsGrow(a: seq<Item>, b: seq<Item>)
    requires a <= b
    ensures Paths(a) <= Paths(b)
  {
    forall p | p in Paths(a) ensures p in Paths(b) {
      var i :| i in a && i.path == p;
      assert i in b;
    }
  }

  // ----------------------------------------------------------- gathering is exact

  /** The children among the first n entries are all listed. */
  ghost predicate ChildrenSeen(dirs: Dirs, runId: string, entries: seq<string>, n: nat, items: seq<Item>)
    requires n <= |entries|
  {
    forall k | 0 <= k < n && HasParent(dirs, entries[k], runId) :: entries[k] in Paths(items)
  }

  lemma {:induction false} ReachedChild(dirs: Dirs, root: string, runId: string, path: string)
    requires Reached(dirs, root, runId) && HasParent(dirs, path, runId)
    ensures Descends(dirs, root, path)
  {
    if runId == root {
      assert Below(dirs, root, path, 1);
    } else {
      var q :| IsRun(dirs, q) && dirs[q].manifest.value.runId == runId && Descends(dirs, root, q);
      ChildDescends(dirs, root, q, path);
    }
  }

  lemma {:induction false} SameIdSamePath(dirs: Dirs, root: string, items: seq<Item>, path: string)
    requires ValidItems(dirs, items) && AllBelow(dirs, root, items) && IsRun(dirs, path) && Descends(dirs, root, path)
    requires exists i | i in items :: i.id == GatheredId(dirs, path)
    ensures DistinctBelow(dirs, root) ==> path in Paths(items)
  {
    var i :| i in items && i.id == GatheredId(dirs, path);
    if DistinctBelow(dirs, root) {
      assert i.path == path;
    }
  }

  lemma {:induction false} PushedIsClosed(dirs: Dirs, pushed: seq<Item>, after: seq<Item>)
    requires pushed != [] && pushed <= after && ClosedFrom(dirs, after, |pushed|)
    requires var i := pushed[|pushed| - 1]; IsRun(dirs, i.path) && ChildrenIn(dirs, dirs[i.path].manifest.value.runId, after)
    ensures ClosedFrom(dirs, after, |pushed| - 1) && pushed[|pushed| - 1].path in Paths(after)
  {
    assert after[|pushed| - 1] == pushed[|pushed| - 1];
  }

  lemma {:induction false} StillSeen(dirs: Dirs, runId: string, entries: seq<string>, i: nat, before: seq<Item>, after: seq<Item>)
    requires i < |entries| && ChildrenSeen(dirs, runId, entries, i, before) && before <= after
    requires entries[i] in Paths(after)
    ensures ChildrenSeen(dirs, runId, entries, i + 1, after)
  {
    PathsGrow(before, after);
  }

  lemma {:induction false} StillClosed(dirs: Dirs, before: seq<Item>, after: seq<Item>, n: nat)
    requires before <= after && ClosedFrom(dirs, before, n) && ClosedFrom(dirs, after, |before|)
    ensures ClosedFrom(dirs, after, n)
  {
    PathsGrow(before, after);
    forall k | n <= k < |after|
      ensures IsRun(dirs, after[k].path) && ChildrenIn(dirs, dirs[after[k].path].manifest.value.runId, after)
    {
      if k < |before| {
        assert after[k] == before[k];
      }
    }
  }

  /** What a gathering from scratch leaves. */
  ghost predicate Gathered(dirs: Dirs, runId: string, items: seq<Item>) {
    && ValidItems(dirs, items) && AllBelow(dirs, runId, items)
    && (DistinctBelow(dirs, runId) ==> ClosedFrom(dirs, items, 0) && ChildrenIn(dirs, runId, items))
  }

  /** Gathering finds exactly the descendants, each once, if and only if no two
      of them share an id. */
  lemma {:induction false} GatheredIsDescendants(dirs: Dirs, runId: string, items: seq<Item>)
    requires Gathered(dirs, runId, items)
    ensures (forall p :: p in Paths(items) <==> Descends(dirs, runId, p)) <==> DistinctBelow(dirs, runId)
  {
    if DistinctBelow(dirs, runId) {
      forall p ensures p in Paths(items) <==> Descends(dirs, runId, p) {
        if Descends(dirs, runId, p) {
          var n: nat :| Below(dirs, runId, p, n);
          BelowIsGathered(dirs, runId, items, p, n);
        }
      }
    } else {
      var p, q :| IsRun(dirs, p) && IsRun(dirs, q) && Descends(dirs, runId, p) && Descends(dirs, runId, q) && p != q
        && GatheredId(dirs, p) == GatheredId(dirs, q);
      if p in Paths(items) && q in Paths(items) {
        SharedIdOnce(dirs, items, p, q);
      }
    }
  }

  lemma {:induction false} FoundIsDescendants(dirs: Dirs, path: string, items: seq<Item>)
    requires IsRun(dirs, path) && Gathered(dirs, dirs[path].manifest.value.runId, items)
    ensures Paths(items) <= DescendantSet(dirs, path)
    ensures Paths(items) == DescendantSet(dirs, path) <==> DistinctBelow(dirs, dirs[path].manifest.value.runId)
  {
    var runId := dirs[path].manifest.value.runId;
    GatheredIsDescendants(dirs, runId, items);
    assert forall p | Descends(dirs, runId, p) :: p in dirs by {
      forall p | Descends(dirs, runId, p) ensures p in dirs {
        var n: nat :| Below(dirs, runId, p, n);
      }
    }
  }

  lemma {:induction false} BelowIsGathered(dirs: Dirs, runId: string, items: seq<Item>, path: string, n: nat)
    requires ClosedFrom(dirs, items, 0) && ChildrenIn(dirs, runId, items)
    requires Below(dirs, runId, path, n)
    ensures path in Paths(items)
    decreases n
  {
    if n > 1 {
      var p :| IsRun(dirs, p) && HasParent(dirs, path, dirs[p].manifest.value.runId) && Below(dirs, runId, p, n - 1);
      BelowIsGathered(dirs, runId, items, p, n - 1);
      var k :| 0 <= k < |items| && items[k].path == p;
    }
  }

  // -------------------------------------------------------- referential integrity

  /** With every removed run its children go as well. */
  ghost predicate ChildClosed(dirs: Dirs, removed: set<string>) {
    forall q, p | q in removed && IsRun(dirs, q) && HasParent(dirs, p, dirs[q].manifest.value.runId) :: p in removed
  }

  lemma {:induction false} ClosedRemovalKeepsIntegrity(dirs: Dirs, removed: set<string>)
    requires Integrity(dirs) && ChildClosed(dirs, removed)
    ensures Integrity(dirs - removed)
  {
    var rest := dirs - removed;
    forall path, id | HasParent(rest, path, id) ensures exists p :: IsRun(rest, p) && rest[p].manifest.value.runId == id {
      assert HasParent(dirs, path, id);
      var p :| IsRun(dirs, p) && dirs[p].manifest.value.runId == id;
      assert IsRun(rest, p);
    }
  }

  lemma {:induction false} ChildDescends(dirs: Dirs, runId: string, q: string, p: string)
    requires IsRun(dirs, q) && HasParent(dirs, p, dirs[q].manifest.value.runId)
    requires dirs[q].manifest.value.runId == runId || Descends(dirs, runId, q)
    ensures Descends(dirs, runId, p)
  {
    if dirs[q].manifest.value.runId == runId {
      assert Below(dirs, runId, p, 1);
    } else {
      var n: nat :| Below(dirs, runId, q, n);
      assert Below(dirs, runId, p, n + 1);
    }
  }

  lemma {:induction false} CascadeSetIsClosed(dirs: Dirs, path: string)
    requires path in dirs
    ensures ChildClosed(dirs, CascadeSet(dirs, path))
  {
    var removed := CascadeSet(dirs, path);
    forall q, p | q in removed && IsRun(dirs, q) && HasParent(dirs, p, dirs[q].manifest.value.runId) ensures p in removed {
      ChildDescends(dirs, dirs[path].manifest.value.runId, q, p);
    }
  }

  lemma {:induction false} RemovalSetIsClosed(dirs: Dirs, path: string, cascade: bool)
    requires path in dirs && (cascade || !HasChildren(dirs, path))
    ensures ChildClosed(dirs, RemovalSet(dirs, path, cascade))
  {
    if cascade {
      CascadeSetIsClosed(dirs, path);
    }
  }

  lemma {:induction false} PruneSetIsClosed(dirs: Dirs, threshold: int, cascade: bool)
    requires cascade || forall q | Expired(dirs, threshold, q) :: !HasChildren(dirs, q)
    ensures ChildClosed(dirs, PruneSet(dirs, threshold, cascade))
  {
    var removed := PruneSet(dirs, threshold, cascade);
    forall q, p | q in removed && IsRun(dirs, q) && HasParent(dirs, p, dirs[q].manifest.value.runId) ensures p in removed {
      var o :| o in dirs && Expired(dirs, threshold, o) && q in RemovalSet(dirs, o, cascade);
      RemovalSetIsClosed(dirs, o, cascade);
    }
  }

  /** Deleting what `delete_run` deletes leaves no dangling parent link. */
  lemma {:induction false} DeleteKeepsIntegrity(dirs: Dirs, path: string, cascade: bool)
    requires path in dirs && (cascade || !HasChildren(dirs, path))
    ensures Integrity(dirs) ==> Integrity(dirs - RemovalSet(dirs, path, cascade))
  {
    RemovalSetIsClosed(dirs, path, cascade);
    if Integrity(dirs) {
      ClosedRemovalKeepsIntegrity(dirs, RemovalSet(dirs, path, cascade));
    }
  }

  lemma {:induction false} PruneKeepsIntegrity(dirs: Dirs, threshold: int, cascade: bool)
    requires cascade || forall q | Expired(dirs, threshold, q) :: !HasChildren(dirs, q)
    ensures Integrity(dirs) ==> Integrity(dirs - PruneSet(dirs, threshold, cascade))
  {
    PruneSetIsClosed(dirs, threshold, cascade);
    if Integrity(dirs) {
      ClosedRemovalKeepsIntegrity(dirs, PruneSet(dirs, threshold, cascade));
    }
  }

  lemma {:induction false} PrunedFromStep(dirs: Dirs, threshold: int, cascade: bool, entries: seq<string>, i: nat)
    requires i < |entries|
    ensures PrunedFrom(dirs, threshold, cascade, entries[..i + 1])
         == PrunedFrom(dirs, threshold, cascade, entries[..i])
          + (if Expired(dirs, threshold, entries[i]) then RemovalSet(dirs, entries[i], cascade) else {})
  {
    assert entries[..i + 1][..i] == entries[..i];
  }

  /** Walking the directory in any order collects the same set. */
  lemma {:induction false} PrunedFromAll(dirs: Dirs, threshold: int, cascade: bool, entries: seq<string>)
    ensures forall p :: p in PrunedFrom(dirs, threshold, cascade, entries) <==>
      exists q :: q in entries && Expired(dirs, threshold, q) && p in RemovalSet(dirs, q, cascade)
  {
    if entries != [] {
      var n := |entries| - 1;
      PrunedFromAll(dirs, threshold, cascade, entries[..n]);
      assert forall q :: q in entries <==> q in entries[..n] || q == entries[n];
    }
  }

  lemma {:induction false} SharedIdOnce(dirs: Dirs, items: seq<Item>, p: string, q: string)
    requires ValidItems(dirs, items) && p in Paths(items) && q in Paths(items)
    requires IsRun(dirs, p) && IsRun(dirs, q) && GatheredId(dirs, p) == GatheredId(dirs, q)
    ensures p == q
  {
    var i :| 0 <= i < |items| && items[i].path == p;
    var j :| 0 <= j < |items| && items[j].path == q;
    assert items[i].id == items[j].id;
    assert i == j;
  }

  /** What a shared id costs: of two children with one id only one is ever
      gathered, so a cascading removal of their parent strands the other. */
  lemma {:induction false} SharedIdLeavesOrphan(dirs: Dirs, r: string, p: string, q: string, items: seq<Item>)
    requires IsRun(dirs, r) && p != q && p != r && q != r
    requires HasParent(dirs, p, dirs[r].manifest.value.runId) && HasParent(dirs, q, dirs[r].manifest.value.runId)
    requires GatheredId(dirs, p) == GatheredId(dirs, q)
    requires forall x | IsRun(dirs, x) && dirs[x].manifest.value.runId == dirs[r].manifest.value.runId :: x == r
    requires ValidItems(dirs, items)
    ensures !Integrity(dirs - ({r} + Paths(items)))
  {
    var rest, id := dirs - ({r} + Paths(items)), dirs[r].manifest.value.runId;
    if p in Paths(items) && q in Paths(items) {
      SharedIdOnce(dirs, items, p, q);
    }
    var orphan := if p in Paths(items) then q else p;
    assert HasParent(rest, orphan, id);
    assert forall x | IsRun(rest, x) :: IsRun(dirs, x);
  }

  /** Such a log: run "a" with two children that both call themselves "b". */
  const SHARED: Dirs := map[
    "dir-a" := RunDir(Some(Manifest("a", None)), 1, 0),
    "dir-b" := RunDir(Some(Manifest("b", Some("a"))), 1, 0),
    "dir-c" := RunDir(Some(Manifest("b", Some("a"))), 1, 0)]

  /** Its links are all good, but whatever is gathered below "a", deleting that
      with "a" leaves a run whose parent is gone. */
  lemma {:induction false} SharedIdExample(items: seq<Item>)
    requires ValidItems(SHARED, items)
    ensures Integrity(SHARED) && !DistinctBelow(SHARED, "a")
    ensures !Integrity(SHARED - ({"dir-a"} + Paths(items)))
  {
    assert IsRun(SHARED, "dir-a") && SHARED["dir-a"].manifest.value.runId == "a";
    assert Below(SHARED, "a", "dir-b", 1) && Below(SHARED, "a", "dir-c", 1);
    assert Descends(SHARED, "a", "dir-b") && Descends(SHARED, "a", "dir-c");
    SharedIdLeavesOrphan(SHARED, "dir-a", "dir-b", "dir-c", items);
  }
}
