/**
 * When a path is committed: the configuration of the CAPIO-CL engine, the
 * metadata tokens and the files on disk, and the recursion of `isCommitted`.
 */
module CommitRules {
  import opened Types

  /** What the file system says of an existing path; the size of a directory is whatever it returns. */
  datatype View = Regular(size: U64) | Directory(entries: nat, size: U64)

  type FileSystem = map<Path, View>

  /** Any rule text other than on_close and on_file is treated as on_termination. */
  datatype CommitRule = OnClose | OnFile | OnTermination

  datatype FireRule = Update | NoUpdate

  /** `closes` is the number of on_close:n, -1 when there is none. */
  datatype Entry = Entry(
    producers: seq<string>,
    commit: CommitRule,
    fire: FireRule,
    isFile: bool,
    closes: int,
    fileCount: int,
    deps: seq<Path>)

  type Locations = map<Path, Entry>

  /** A token holds the number of closes; an empty token reads as 0. */
  datatype World = World(locations: Locations, tokens: map<Path, nat>, fs: FileSystem)

  predicate IsDirectory(fs: FileSystem, p: Path) {
    p in fs && fs[p].Directory?
  }

  function FileSize(fs: FileSystem, p: Path): U64 {
    if p in fs then fs[p].size else 0
  }

  function CommitRuleOf(l: Locations, p: Path): CommitRule {
    if p in l then l[p].commit else OnTermination
  }

  function FireRuleOf(l: Locations, p: Path): FireRule {
    if p in l then l[p].fire else Update
  }

  function DirectoryFileCount(l: Locations, p: Path): int {
    if p in l then l[p].fileCount else 0
  }

  function CommitCloseCount(l: Locations, p: Path): int {
    if p in l then l[p].closes else 0
  }

  function FileDeps(l: Locations, p: Path): seq<Path> {
    if p in l then l[p].deps else []
  }

  // ---- The meaning ----

  /** A path that is judged by itself and not by its dependencies. */
  predicate Leaf(w: World, p: Path) {
    IsDirectory(w.fs, p) || CommitRuleOf(w.locations, p) != OnFile
  }

  /** The rule of a leaf. */
  predicate MeetsOwnRule(w: World, p: Path) {
    if IsDirectory(w.fs, p) then w.fs[p].entries >= DirectoryFileCount(w.locations, p)
    else
      && p in w.tokens
      && (CommitRuleOf(w.locations, p) == OnClose && CommitCloseCount(w.locations, p) != -1 ==>
            w.tokens[p] >= CommitCloseCount(w.locations, p))
  }

  predicate Edge(w: World, p: Path, q: Path) {
    !Leaf(w, p) && q in FileDeps(w.locations, p)
  }

  ghost predicate Chain(w: World, c: seq<Path>) {
    |c| > 0 && forall i | 0 <= i < |c| - 1 :: Edge(w, c[i], c[i + 1])
  }

  ghost predicate Reaches(w: World, p: Path, q: Path) {
    exists c :: Chain(w, c) && c[0] == p && c[|c| - 1] == q
  }

  /** Every leaf reachable through on_file dependencies meets its own rule. */
  ghost predicate Committed(w: World, p: Path) {
    forall q | Reaches(w, p, q) && Leaf(w, q) :: MeetsOwnRule(w, q)
  }

  /** One on_file dependency of the configuration, whatever is on disk. */
  predicate DependsDirectly(l: Locations, p: Path, q: Path) {
    CommitRuleOf(l, p) == OnFile && q in FileDeps(l, p)
  }

  ghost predicate DependencyChain(l: Locations, c: seq<Path>) {
    |c| > 1 && forall i | 0 <= i < |c| - 1 :: DependsDirectly(l, c[i], c[i + 1])
  }

  ghost predicate Depends(l: Locations, p: Path, q: Path) {
    exists c :: DependencyChain(l, c) && c[0] == p && c[|c| - 1] == q
  }

  ghost predicate Acyclic(l: Locations) {
    forall p :: !Depends(l, p, p)
  }

  lemma ReachesItself(w: World, p: Path)
    ensures Reaches(w, p, p)
  {
    assert Chain(w, [p]) && [p][0] == p;
  }

  lemma ReachesThrough(w: World, p: Path, x: Path, q: Path)
    requires Edge(w, p, x) && Reaches(w, x, q)
    ensures Reaches(w, p, q)
  {
    var c :| Chain(w, c) && c[0] == x && c[|c| - 1] == q;
    var d := [p] + c;
    assert forall i | 0 <= i < |d| - 1 :: i == 0 || (d[i] == c[i - 1] && d[i + 1] == c[i]);
    assert Chain(w, d) && d[0] == p && d[|d| - 1] == q;
  }

  lemma FirstStep(w: World, p: Path, q: Path) returns (x: Path)
    requires Reaches(w, p, q) && p != q
    ensures Edge(w, p, x) && Reaches(w, x, q)
  {
    var c :| Chain(w, c) && c[0] == p && c[|c| - 1] == q;
    x := c[1];
    var d := c[1..];
    assert Edge(w, c[0], c[1]);
    forall i | 0 <= i < |d| - 1 ensures Edge(w, d[i], d[i + 1]) {
      assert d[i] == c[i + 1] && d[i + 1] == c[i + 1 + 1];
    }
    assert Chain(w, d) && d[0] == x && d[|d| - 1] == q;
  }

  /** A leaf is committed exactly when it meets its own rule. */
  lemma LeafCommitted(w: World, p: Path)
    requires Leaf(w, p)
    ensures Committed(w, p) <==> MeetsOwnRule(w, p)
  {
    ReachesItself(w, p);
    forall q | Reaches(w, p, q) ensures q == p {
      if q != p { var x := FirstStep(w, p, q); }
    }
  }

  /** Any other path is committed exactly when all its dependencies are. */
  lemma DependentCommitted(w: World, p: Path)
    requires !Leaf(w, p)
    ensures Committed(w, p) <==> forall q | q in FileDeps(w.locations, p) :: Committed(w, q)
  {
    if Committed(w, p) {
      forall x, q | x in FileDeps(w.locations, p) && Reaches(w, x, q) && Leaf(w, q) ensures MeetsOwnRule(w, q) {
        ReachesThrough(w, p, x, q);
      }
    } else {
      var q :| Reaches(w, p, q) && Leaf(w, q) && !MeetsOwnRule(w, q);
      var x := FirstStep(w, p, q);
      assert !Committed(w, x);
    }
  }

  /**
   * One step of the decision, read off the entry itself: a directory counts
   * its entries against the configured number, 0 for a path no entry names; a
   * file no entry names needs a token; otherwise the entry's rule decides, over
   * every one of its dependencies.
   */
  lemma CommittedByEntry(w: World, p: Path)
    ensures Committed(w, p) <==>
              if p in w.fs && w.fs[p].Directory? then
                w.fs[p].entries >= (if p in w.locations then w.locations[p].fileCount else 0)
              else if p !in w.locations then p in w.tokens
              else match w.locations[p].commit
                   case OnFile => forall q | q in w.locations[p].deps :: Committed(w, q)
                   case OnClose =>
                     p in w.tokens && (w.locations[p].closes == -1 || w.tokens[p] >= w.locations[p].closes)
                   case OnTermination => p in w.tokens
  {
    if Leaf(w, p) { LeafCommitted(w, p); } else { DependentCommitted(w, p); }
  }

  /** A dependency that is not committed holds the file back, wherever it stands in the list. */
  lemma EveryDependencyCounts(w: World, p: Path, i: nat)
    requires p in w.locations && w.locations[p].commit == OnFile && i < |w.locations[p].deps|
    requires !IsDirectory(w.fs, p) && !Committed(w, w.locations[p].deps[i])
    ensures !Committed(w, p)
  {
    CommittedByEntry(w, p);
  }

  lemma DependsOnOneMore(l: Locations, p: Path, q: Path, r: Path)
    requires DependsDirectly(l, q, r)
    ensures Depends(l, q, r)
    ensures Depends(l, p, q) ==> Depends(l, p, r)
  {
    assert DependencyChain(l, [q, r]) && [q, r][0] == q && [q, r][|[q, r]| - 1] == r;
    if Depends(l, p, q) {
      var c :| DependencyChain(l, c) && c[0] == p && c[|c| - 1] == q;
      var d := c + [r];
      assert forall i | 0 <= i < |d| - 1 :: DependsDirectly(l, d[i], d[i + 1]);
      assert DependencyChain(l, d) && d[0] == p && d[|d| - 1] == r;
    }
  }

  function OnFileKeys(l: Locations): set<Path> {
    set p | p in l && l[p].commit == OnFile
  }

  /** The files whose dependencies are being checked all depend on `path`. */
  ghost predicate OnTheWay(l: Locations, above: set<Path>, path: Path) {
    forall p | p in above :: Depends(l, p, path)
  }

  lemma StepDown(l: Locations, above: set<Path>, path: Path)
    requires Acyclic(l) && OnTheWay(l, above, path)
    ensures path !in above
    ensures forall q | DependsDirectly(l, path, q) :: OnTheWay(l, above + {path}, q)
  {
    assert !Depends(l, path, path);
    forall q, p | DependsDirectly(l, path, q) && p in above + {path} ensures Depends(l, p, q) {
      DependsOnOneMore(l, p, path, q);
    }
  }

  /** `isCommitted`; `above` are the files whose dependencies are being checked. */
  method IsCommitted(w: World, path: Path, ghost above: set<Path> := {}) returns (committed: bool)
    requires Acyclic(w.locations) && OnTheWay(w.locations, above, path)
    ensures committed <==> Committed(w, path)
    decreases OnFileKeys(w.locations) - above, 1
  {
    if IsDirectory(w.fs, path) {
      LeafCommitted(w, path);
      return w.fs[path].entries >= DirectoryFileCount(w.locations, path);
    }
    var commitRule := CommitRuleOf(w.locations, path);
    var tokenExists := path in w.tokens;
    if commitRule == OnFile {
      DependentCommitted(w, path);
      committed := DepsCommitted(w, path, above);
      return;
    }
    LeafCommitted(w, path);
    if commitRule == OnClose {
      var commitCount := CommitCloseCount(w.locations, path);
      if tokenExists {
        if commitCount != -1 {
          return w.tokens[path] >= commitCount;
        }
        return true;
      }
      return false;
    }
    return tokenExists;
  }

  /** The loop over the dependencies; it stops asking at the first that is not committed. */
  method DepsCommitted(w: World, path: Path, ghost above: set<Path>) returns (commitComputed: bool)
    requires Acyclic(w.locations) && OnTheWay(w.locations, above, path)
    requires path in w.locations && CommitRuleOf(w.locations, path) == OnFile
    ensures commitComputed <==> forall q | q in FileDeps(w.locations, path) :: Committed(w, q)
    decreases OnFileKeys(w.locations) - above, 0
  {
    StepDown(w.locations, above, path);
    assert path in OnFileKeys(w.locations) - above;
    var deps := FileDeps(w.locations, path);
    commitComputed := true;
    var i := 0;
    while i < |deps|
      invariant 0 <= i <= |deps|
      invariant commitComputed <==> forall j | 0 <= j < i :: Committed(w, deps[j])
    {
      if commitComputed {
        assert DependsDirectly(w.locations, path, deps[i]);
        commitComputed := IsCommitted(w, deps[i], above + {path});
      }
      i := i + 1;
    }
  }

  // ---- Once committed, always committed ----

  /** No entry changes except in its producers, and new entries carry no dependency and no number. */
  ghost predicate LocationsGrow(l: Locations, m: Locations) {
    && (forall p | p in l :: p in m && m[p].(producers := l[p].producers) == l[p])
    && (forall p | p in m && p !in l :: m[p].deps == [] && m[p].closes == -1 && m[p].fileCount == -1)
  }

  ghost predicate TokensGrow(t: map<Path, nat>, u: map<Path, nat>) {
    forall p | p in t :: p in u && u[p] >= t[p]
  }

  /** Directories keep their entries. */
  ghost predicate EntriesStay(fs: FileSystem, gs: FileSystem) {
    forall p | IsDirectory(fs, p) :: IsDirectory(gs, p) && gs[p].entries >= fs[p].entries
  }

  predicate BecomesDirectory(fs: FileSystem, gs: FileSystem, p: Path) {
    IsDirectory(gs, p) && !IsDirectory(fs, p)
  }

  /** A committed path that becomes a directory has as many entries as it should have; any other may fill up later. */
  ghost predicate NewDirectoriesFull(w: World, gs: FileSystem) {
    forall p | BecomesDirectory(w.fs, gs, p) && Committed(w, p) :: gs[p].entries >= DirectoryFileCount(w.locations, p)
  }

  ghost predicate Grows(w: World, v: World) {
    && LocationsGrow(w.locations, v.locations)
    && TokensGrow(w.tokens, v.tokens)
    && EntriesStay(w.fs, v.fs)
  }

  lemma OldEdges(w: World, v: World, p: Path, q: Path)
    requires Grows(w, v) && Edge(v, p, q)
    ensures Edge(w, p, q)
  {
  }

  lemma OldReach(w: World, v: World, p: Path, q: Path)
    requires Grows(w, v) && Reaches(v, p, q)
    ensures Reaches(w, p, q)
  {
    var c :| Chain(v, c) && c[0] == p && c[|c| - 1] == q;
    forall i | 0 <= i < |c| - 1 ensures Edge(w, c[i], c[i + 1]) {
      OldEdges(w, v, c[i], c[i + 1]);
    }
    assert Chain(w, c);
  }

  lemma LeafKeepsRule(w: World, v: World, q: Path)
    requires Grows(w, v) && Leaf(v, q) && !MeetsOwnRule(v, q)
    requires BecomesDirectory(w.fs, v.fs, q) ==> v.fs[q].entries >= DirectoryFileCount(w.locations, q)
    ensures Leaf(w, q) && !MeetsOwnRule(w, q)
  {
  }

  /**
   * A committed path stays committed, even when its entry appears later with
   * any inherited rule in place of the default one, if and only if no
   * directory that is new below it lacks entries.
   */
  lemma PathStaysCommittedExactly(w: World, v: World, p: Path)
    requires Grows(w, v) && Committed(w, p)
    ensures Committed(v, p)
       <==> forall q | Reaches(v, p, q) && BecomesDirectory(w.fs, v.fs, q) ::
              v.fs[q].entries >= DirectoryFileCount(w.locations, q)
  {
    forall q | Reaches(v, p, q) && Leaf(v, q) && !MeetsOwnRule(v, q)
      ensures BecomesDirectory(w.fs, v.fs, q) && v.fs[q].entries < DirectoryFileCount(w.locations, q)
    {
      OldReach(w, v, p, q);
      if !(BecomesDirectory(w.fs, v.fs, q) && v.fs[q].entries < DirectoryFileCount(w.locations, q)) {
        LeafKeepsRule(w, v, q);
      }
    }
  }

  lemma {:induction false} ReachesTransitive(w: World, p: Path, x: Path, q: Path)
    requires Reaches(w, p, x) && Reaches(w, x, q)
    ensures Reaches(w, p, q)
  {
    var c :| Chain(w, c) && c[0] == p && c[|c| - 1] == x;
    ChainThenReaches(w, c, q);
  }

  lemma {:induction false} ChainThenReaches(w: World, c: seq<Path>, q: Path)
    requires Chain(w, c) && Reaches(w, c[|c| - 1], q)
    ensures Reaches(w, c[0], q)
    decreases |c|
  {
    if |c| > 1 {
      var d := c[1..];
      assert Edge(w, c[0], c[1]);
      forall i | 0 <= i < |d| - 1 ensures Edge(w, d[i], d[i + 1]) {
        assert d[i] == c[i + 1] && d[i + 1] == c[i + 1 + 1];
      }
      ChainThenReaches(w, d, q);
      ReachesThrough(w, c[0], c[1], q);
    }
  }

  /** What a committed path depends on is committed. */
  lemma BelowCommitted(w: World, p: Path, q: Path)
    requires Committed(w, p) && Reaches(w, p, q)
    ensures Committed(w, q)
  {
    forall x | Reaches(w, q, x) && Leaf(w, x) ensures MeetsOwnRule(w, x) {
      ReachesTransitive(w, p, q, x);
    }
  }

  lemma CommittedStays(w: World, v: World, p: Path)
    requires Grows(w, v) && NewDirectoriesFull(w, v.fs) && Committed(w, p)
    ensures Committed(v, p)
  {
    forall q | Reaches(v, p, q) && BecomesDirectory(w.fs, v.fs, q)
      ensures v.fs[q].entries >= DirectoryFileCount(w.locations, q)
    {
      OldReach(w, v, p, q);
      BelowCommitted(w, p, q);
    }
    PathStaysCommittedExactly(w, v, p);
  }

  /**
   * Every committed path stays committed if and only if every committed path
   * that becomes a directory is full when it does.
   */
  lemma PermanenceExactly(w: World, v: World)
    requires Grows(w, v)
    ensures NewDirectoriesFull(w, v.fs) <==> forall p | Committed(w, p) :: Committed(v, p)
  {
    if NewDirectoriesFull(w, v.fs) {
      forall p | Committed(w, p) ensures Committed(v, p) { CommittedStays(w, v, p); }
    }
    forall p | BecomesDirectory(w.fs, v.fs, p) && Committed(w, p) && Committed(v, p)
      ensures v.fs[p].entries >= DirectoryFileCount(w.locations, p)
    {
      LeafCommitted(v, p);
    }
  }

  /** A committed name that becomes an empty directory may have to fill up first. */
  lemma NewDirectoryUncommits(p: Path)
    ensures var e := Entry([], OnTermination, Update, false, -1, 1, []);
            var w := World(map[p := e], map[p := 0], map[]);
            && Committed(w, p)
            && !Committed(w.(fs := map[p := Directory(0, 0)]), p)
  {
    var e := Entry([], OnTermination, Update, false, -1, 1, []);
    var w := World(map[p := e], map[p := 0], map[]);
    LeafCommitted(w, p);
    LeafCommitted(w.(fs := map[p := Directory(0, 0)]), p);
  }

  /** A file with rule on_close:n and a token with `k` closes, -1 standing for no number. */
  lemma OnCloseCommitted(w: World, p: Path)
    requires !IsDirectory(w.fs, p) && CommitRuleOf(w.locations, p) == OnClose
    ensures Committed(w, p) <==>
              p in w.tokens && (w.locations[p].closes == -1 || w.tokens[p] >= w.locations[p].closes)
  {
    LeafCommitted(w, p);
  }

  lemma OldDependency(l: Locations, m: Locations, p: Path, q: Path)
    requires LocationsGrow(l, m) && Depends(m, p, q)
    ensures Depends(l, p, q)
  {
    var c :| DependencyChain(m, c) && c[0] == p && c[|c| - 1] == q;
    forall i | 0 <= i < |c| - 1 ensures DependsDirectly(l, c[i], c[i + 1]) {
      assert DependsDirectly(m, c[i], c[i + 1]);
    }
    assert DependencyChain(l, c);
  }

  lemma GrowthKeepsAcyclic(l: Locations, m: Locations)
    requires LocationsGrow(l, m) && Acyclic(l)
    ensures Acyclic(m)
  {
    forall p ensures !Depends(m, p, p) {
      if Depends(m, p, p) { OldDependency(l, m, p, p); }
    }
  }
}
