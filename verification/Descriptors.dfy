/**
 * The client's three descriptor maps as values: path to descriptors,
 * descriptor to path, descriptor to file entry. `C` is what an entry holds in
 * place of the shared pointer to an offset.
 *
 * `insert` and `emplace` of the maps never overwrite, which every function
 * here keeps; where that breaks the tables, a lemma says exactly when.
 */
module Descriptors {
  import opened Types

  type Fd = Int32

  datatype Entry<+C> = Entry(cell: C, cloexec: bool)

  datatype Tables<+C> = Tables(
    paths: map<Path, set<Fd>>,
    descriptors: map<Fd, Path>,
    files: map<Fd, Entry<C>>)

  function InsertNew<K, V>(m: map<K, V>, k: K, v: V): map<K, V> {
    if k in m then m else m[k := v]
  }

  /** The maps are inverse to each other and know the same descriptors. */
  ghost predicate Inverse<C>(t: Tables<C>) {
    && t.files.Keys == t.descriptors.Keys
    && (forall p, fd | p in t.paths && fd in t.paths[p] :: fd in t.descriptors && t.descriptors[fd] == p)
    && (forall fd | fd in t.descriptors :: t.descriptors[fd] in t.paths && fd in t.paths[t.descriptors[fd]])
  }

  /** `at` finds the descriptor in every map `f` is looked up in. */
  predicate Tracked<C>(t: Tables<C>, fd: Fd) {
    fd in t.descriptors && fd in t.files && t.descriptors[fd] in t.paths
  }

  function Add<C>(t: Tables<C>, path: Path, fd: Fd, cell: C, cloexec: bool): Tables<C> {
    var paths := InsertNew(t.paths, path, {});
    Tables(paths[path := paths[path] + {fd}],
           InsertNew(t.descriptors, fd, path),
           InsertNew(t.files, fd, Entry(cell, cloexec)))
  }

  function Delete<C>(t: Tables<C>, fd: Fd): Tables<C>
    requires Tracked(t, fd)
  {
    var path := t.descriptors[fd];
    Tables(t.paths[path := t.paths[path] - {fd}], t.descriptors - {fd}, t.files - {fd})
  }

  function DeletePath<C>(t: Tables<C>, path: Path): Tables<C> {
    if path !in t.paths then t
    else Tables(t.paths - {path}, t.descriptors - t.paths[path], t.files - t.paths[path])
  }

  /** Half way through deleting a path: `left` are the descriptors not yet erased. */
  ghost function PartlyDeleted<C>(t: Tables<C>, path: Path, left: set<Fd>): Tables<C>
    requires path in t.paths
  {
    var gone := t.paths[path] - left;
    Tables(t.paths[path := left], t.descriptors - gone, t.files - gone)
  }

  lemma DeleteOneMore<C>(t: Tables<C>, path: Path, left: set<Fd>, fd: Fd)
    requires Inverse(t) && path in t.paths && left <= t.paths[path] && fd in left
    ensures Tracked(PartlyDeleted(t, path, left), fd)
    ensures Delete(PartlyDeleted(t, path, left), fd) == PartlyDeleted(t, path, left - {fd})
  {
    assert t.paths[path] - (left - {fd}) == (t.paths[path] - left) + {fd};
    assert t.descriptors - (t.paths[path] - left) - {fd} == t.descriptors - ((t.paths[path] - left) + {fd});
    assert t.files - (t.paths[path] - left) - {fd} == t.files - ((t.paths[path] - left) + {fd});
  }

  lemma DeletedAll<C>(t: Tables<C>, path: Path)
    requires path in t.paths
    ensures var u := PartlyDeleted(t, path, {});
            u.(paths := u.paths - {path}) == DeletePath(t, path)
    ensures PartlyDeleted(t, path, t.paths[path]) == t
  {
    assert t.paths[path] - {} == t.paths[path] && t.paths[path] - t.paths[path] == {};
  }

  function Dup<C>(t: Tables<C>, oldfd: Fd, newfd: Fd, cloexec: bool): Tables<C>
    requires Tracked(t, oldfd)
  {
    var path := t.descriptors[oldfd];
    var files := InsertNew(t.files, newfd, t.files[oldfd]);
    Tables(t.paths[path := t.paths[path] + {newfd}],
           InsertNew(t.descriptors, newfd, path),
           files[newfd := files[newfd].(cloexec := cloexec)])
  }

  function RenamePath<C>(t: Tables<C>, oldpath: Path, newpath: Path): Tables<C> {
    if oldpath !in t.paths then t
    else
      var paths := InsertNew(t.paths - {oldpath}, newpath, t.paths[oldpath]);
      t.(paths := paths,
         descriptors := map fd | fd in t.descriptors :: if fd in paths[newpath] then newpath else t.descriptors[fd])
  }

  function SetCloexec<C>(t: Tables<C>, fd: Fd, cloexec: bool): Tables<C>
    requires fd in t.files
  {
    t.(files := t.files[fd := t.files[fd].(cloexec := cloexec)])
  }

  // ---- What keeps the maps inverse ----

  lemma AddKeepsInverse<C>(t: Tables<C>, path: Path, fd: Fd, cell: C, cloexec: bool)
    requires Inverse(t)
    ensures Inverse(Add(t, path, fd, cell, cloexec)) <==> (fd !in t.descriptors || t.descriptors[fd] == path)
  {
    var u := Add(t, path, fd, cell, cloexec);
    assert fd in u.paths[path];
  }

  lemma DeleteKeepsInverse<C>(t: Tables<C>, fd: Fd)
    requires Inverse(t) && fd in t.descriptors
    ensures Inverse(Delete(t, fd))
    ensures var u := Delete(t, fd);
            && u.descriptors == t.descriptors - {fd} && u.files == t.files - {fd}
            && u.paths.Keys == t.paths.Keys
  {
  }

  lemma DeletePathKeepsInverse<C>(t: Tables<C>, path: Path)
    requires Inverse(t)
    ensures Inverse(DeletePath(t, path)) && path !in DeletePath(t, path).paths
  {
    var u := DeletePath(t, path);
    forall fd ensures fd in u.descriptors <==> fd in t.descriptors && t.descriptors[fd] != path {
      DeletePathRemovesItsFds(t, path, fd);
    }
    forall p, fd | p in u.paths && fd in u.paths[p] ensures fd in u.descriptors && u.descriptors[fd] == p {
      assert t.descriptors[fd] == p;
    }
    assert u.files.Keys == u.descriptors.Keys;
  }

  /** Deleting a path removes exactly the descriptors whose path it is. */
  lemma DeletePathRemovesItsFds<C>(t: Tables<C>, path: Path, fd: Fd)
    requires Inverse(t)
    ensures var u := DeletePath(t, path);
            && (fd in u.descriptors <==> fd in t.descriptors && t.descriptors[fd] != path)
            && (fd in u.files <==> fd in t.files && t.descriptors[fd] != path)
            && (fd in u.descriptors ==> u.descriptors[fd] == t.descriptors[fd] && u.files[fd] == t.files[fd])
  {
  }

  /** A dup onto a tracked descriptor of another path breaks the tables, and nothing else does. */
  lemma DupKeepsInverse<C>(t: Tables<C>, oldfd: Fd, newfd: Fd, cloexec: bool)
    requires Inverse(t) && oldfd in t.descriptors
    ensures Inverse(Dup(t, oldfd, newfd, cloexec))
       <==> (newfd !in t.descriptors || t.descriptors[newfd] == t.descriptors[oldfd])
  {
    var u := Dup(t, oldfd, newfd, cloexec);
    assert newfd in u.paths[t.descriptors[oldfd]];
  }

  /** POSIX: after dup both descriptors refer to one offset. It holds unless the target was tracked with another. */
  lemma DupShares<C>(t: Tables<C>, oldfd: Fd, newfd: Fd, cloexec: bool)
    requires Inverse(t) && oldfd in t.descriptors
    ensures var u := Dup(t, oldfd, newfd, cloexec);
            && newfd in u.files && u.files[newfd].cloexec == cloexec
            && (oldfd != newfd ==> u.files[oldfd] == t.files[oldfd])
            && (u.files[newfd].cell == u.files[oldfd].cell
                <==> (newfd !in t.files || t.files[newfd].cell == t.files[oldfd].cell))
  {
  }

  /** A rename onto a tracked path loses the descriptors of the old one, if it has any. */
  lemma RenameKeepsInverse<C>(t: Tables<C>, oldpath: Path, newpath: Path)
    requires Inverse(t)
    ensures Inverse(RenamePath(t, oldpath, newpath))
       <==> (oldpath !in t.paths || newpath !in t.paths || oldpath == newpath || t.paths[oldpath] == {})
  {
    if oldpath in t.paths {
      if newpath !in t.paths || oldpath == newpath {
        RenameToFreshPath(t, oldpath, newpath);
      } else if t.paths[oldpath] == {} {
        RenameOfUnusedPath(t, oldpath, newpath);
      } else {
        var fd :| fd in t.paths[oldpath];
        var u := RenamePath(t, oldpath, newpath);
        assert u.descriptors[fd] == oldpath && oldpath !in u.paths;
      }
    }
  }

  lemma RenameToFreshPath<C>(t: Tables<C>, oldpath: Path, newpath: Path)
    requires Inverse(t) && oldpath in t.paths && (newpath !in t.paths || oldpath == newpath)
    ensures Inverse(RenamePath(t, oldpath, newpath))
    ensures forall fd | fd in t.descriptors ::
              RenamePath(t, oldpath, newpath).descriptors[fd]
              == if t.descriptors[fd] == oldpath then newpath else t.descriptors[fd]
  {
    assert RenamePath(t, oldpath, newpath).paths[newpath] == t.paths[oldpath];
  }

  lemma RenameOfUnusedPath<C>(t: Tables<C>, oldpath: Path, newpath: Path)
    requires Inverse(t) && oldpath in t.paths && newpath in t.paths && oldpath != newpath && t.paths[oldpath] == {}
    ensures Inverse(RenamePath(t, oldpath, newpath))
  {
    assert RenamePath(t, oldpath, newpath).paths[newpath] == t.paths[newpath];
  }

  /** Which paths are tracked afterwards: closing the last descriptor of a path leaves it tracked. */
  lemma TrackedPathsExactly<C>(
    t: Tables<C>, path: Path, newpath: Path, fd: Fd, newfd: Fd, cell: C, cloexec: bool)
    ensures Add(t, path, fd, cell, cloexec).paths.Keys == t.paths.Keys + {path}
    ensures Tracked(t, fd) ==> Delete(t, fd).paths.Keys == Dup(t, fd, newfd, cloexec).paths.Keys == t.paths.Keys
    ensures DeletePath(t, path).paths.Keys == t.paths.Keys - {path}
    ensures RenamePath(t, path, newpath).paths.Keys
         == if path in t.paths then t.paths.Keys - {path} + {newpath} else t.paths.Keys
  {
  }

  /**
   * What such a rename does: it strands exactly the descriptors of the old
   * path. They still have a file entry, but the next close of one fails in `at`.
   */
  lemma RenameStrandsExactly<C>(t: Tables<C>, oldpath: Path, newpath: Path, fd: Fd)
    requires Inverse(t) && oldpath in t.paths && newpath in t.paths && oldpath != newpath
    ensures var u := RenamePath(t, oldpath, newpath);
            fd in u.files && !Tracked(u, fd) <==> fd in t.paths[oldpath]
  {
  }

  /** A dup onto a descriptor of another path lists it twice, and closing it leaves one listing behind. */
  lemma DupOntoTrackedLeavesListing<C>(t: Tables<C>, oldfd: Fd, newfd: Fd, cloexec: bool)
    requires Inverse(t) && oldfd in t.descriptors && newfd in t.descriptors
    requires t.descriptors[newfd] != t.descriptors[oldfd]
    ensures var u := Dup(t, oldfd, newfd, cloexec);
            && u.descriptors[newfd] == t.descriptors[newfd] && u.files[newfd].cell == t.files[newfd].cell
            && Tracked(u, newfd)
            && var v := Delete(u, newfd);
               newfd in v.paths[t.descriptors[oldfd]] && newfd !in v.descriptors
  {
  }

  // ---- Runs, and what POSIX says each descriptor is ----

  datatype Event =
    | Open(path: Path, fd: Fd, offset: U64, cloexec: bool)
    | DupFd(oldfd: Fd, newfd: Fd, cloexec: bool)
    | Close(fd: Fd)
    | Unlink(path: Path)
    | Move(oldpath: Path, newpath: Path)
    | Seek(fd: Fd, offset: U64)
    | Cloexec(fd: Fd, cloexec: bool)

  /** Offsets live in cells; an open allocates the cell named by the number of events so far. */
  datatype State = State(tables: Tables<nat>, offsets: map<nat, U64>, clock: nat)

  const START: State := State(Tables(map[], map[], map[]), map[], 0)

  /**
   * What the functions look up with `at` is there. Walking a path to delete it
   * is described only while the descriptors listed under the path are its own.
   */
  predicate Possible(s: State, e: Event) {
    var t := s.tables;
    match e
    case Open(_, _, _, _) => true
    case DupFd(oldfd, _, _) => Tracked(t, oldfd)
    case Close(fd) => Tracked(t, fd)
    case Unlink(path) =>
      path in t.paths ==> forall fd | fd in t.paths[path] :: fd in t.descriptors && t.descriptors[fd] == path
    case Move(oldpath, newpath) =>
      oldpath in t.paths ==>
        forall fd | fd in (if newpath in t.paths && newpath != oldpath then t.paths[newpath] else t.paths[oldpath]) ::
          fd in t.descriptors
    case Seek(fd, _) => Tracked(t, fd)
    case Cloexec(fd, _) => Tracked(t, fd)
  }

  /** The event finds a target under which the maps stay inverse. */
  predicate KeepsMaps(s: State, e: Event) {
    var t := s.tables;
    match e
    case Open(path, fd, _, _) => fd !in t.descriptors || t.descriptors[fd] == path
    case DupFd(oldfd, newfd, _) =>
      newfd !in t.descriptors || (oldfd in t.descriptors && t.descriptors[newfd] == t.descriptors[oldfd])
    case Move(oldpath, newpath) =>
      oldpath !in t.paths || newpath !in t.paths || oldpath == newpath || t.paths[oldpath] == {}
    case _ => true
  }

  /** The event also finds a target that leaves the offsets right: no entry of its own, or already the one meant. */
  predicate KeepsMeaning(s: State, e: Event) {
    var t := s.tables;
    match e
    case Open(_, fd, _, _) => fd !in t.descriptors
    case DupFd(oldfd, newfd, _) =>
      newfd !in t.descriptors
      || (oldfd in t.descriptors && t.descriptors[newfd] == t.descriptors[oldfd]
          && oldfd in t.files && newfd in t.files && t.files[newfd].cell == t.files[oldfd].cell)
    case _ => KeepsMaps(s, e)
  }

  function Next(s: State, e: Event): State
    requires Possible(s, e)
  {
    var t := s.tables;
    var u :=
      match e
      case Open(path, fd, offset, cloexec) =>
        s.(tables := Add(t, path, fd, s.clock, cloexec), offsets := s.offsets[s.clock := offset])
      case DupFd(oldfd, newfd, cloexec) => s.(tables := Dup(t, oldfd, newfd, cloexec))
      case Close(fd) => s.(tables := Delete(t, fd))
      case Unlink(path) => s.(tables := DeletePath(t, path))
      case Move(oldpath, newpath) => s.(tables := RenamePath(t, oldpath, newpath))
      case Seek(fd, offset) => s.(offsets := s.offsets[t.files[fd].cell := offset])
      case Cloexec(fd, cloexec) => s.(tables := SetCloexec(t, fd, cloexec));
    u.(clock := s.clock + 1)
  }

  ghost function Exec(run: seq<Event>): Option<State> {
    if run == [] then Some(START)
    else
      var e := run[|run| - 1];
      match Exec(run[..|run| - 1])
      case None => None
      case Some(s) => if Possible(s, e) then Some(Next(s, e)) else None
  }

  /** The path a descriptor stands for, read backwards off the run. */
  function NameOf(run: seq<Event>, fd: Fd): Option<Path> {
    if run == [] then None
    else
      var e, before := run[|run| - 1], run[..|run| - 1];
      match e
      case Open(path, f, _, _) => if f == fd then Some(path) else NameOf(before, fd)
      case DupFd(oldfd, newfd, _) => NameOf(before, if newfd == fd then oldfd else fd)
      case Close(f) => if f == fd then None else NameOf(before, fd)
      case Unlink(path) => if NameOf(before, fd) == Some(path) then None else NameOf(before, fd)
      case Move(oldpath, newpath) =>
        if NameOf(before, fd) == Some(oldpath) then Some(newpath) else NameOf(before, fd)
      case _ => NameOf(before, fd)
  }

  /** The open event a descriptor goes back to through dups: its open file description. */
  function Description(run: seq<Event>, fd: Fd): Option<nat> {
    if run == [] then None
    else
      var e, before := run[|run| - 1], run[..|run| - 1];
      match e
      case Open(_, f, _, _) => if f == fd then Some(|before|) else Description(before, fd)
      case DupFd(oldfd, newfd, _) => Description(before, if newfd == fd then oldfd else fd)
      case Close(f) => if f == fd then None else Description(before, fd)
      case Unlink(path) => if NameOf(before, fd) == Some(path) then None else Description(before, fd)
      case _ => Description(before, fd)
  }

  /** The offset of a description: the last seek through any descriptor that refers to it. */
  function OffsetOf(run: seq<Event>, d: nat): U64 {
    if run == [] then 0
    else
      var e, before := run[|run| - 1], run[..|run| - 1];
      match e
      case Open(_, _, offset, _) => if d == |before| then offset else OffsetOf(before, d)
      case Seek(fd, offset) => if Description(before, fd) == Some(d) then offset else OffsetOf(before, d)
      case _ => OffsetOf(before, d)
  }

  /** The close-on-exec flag belongs to the descriptor alone. */
  function CloexecOf(run: seq<Event>, fd: Fd): bool {
    if run == [] then false
    else
      var e, before := run[|run| - 1], run[..|run| - 1];
      match e
      case Open(_, f, _, cloexec) => if f == fd then cloexec else CloexecOf(before, fd)
      case DupFd(_, newfd, cloexec) => if newfd == fd then cloexec else CloexecOf(before, fd)
      case Cloexec(f, cloexec) => if f == fd then cloexec else CloexecOf(before, fd)
      case _ => CloexecOf(before, fd)
  }

  /** The tables after a run say about a descriptor what the run says about it. */
  ghost predicate Agrees(s: State, run: seq<Event>, fd: Fd) {
    && (fd in s.tables.files <==> Description(run, fd).Some?)
    && (NameOf(run, fd).Some? <==> Description(run, fd).Some?)
    && (fd in s.tables.files && fd in s.tables.descriptors ==>
          && NameOf(run, fd) == Some(s.tables.descriptors[fd])
          && Description(run, fd) == Some(s.tables.files[fd].cell)
          && s.tables.files[fd].cell in s.offsets
          && s.offsets[s.tables.files[fd].cell] == OffsetOf(run, s.tables.files[fd].cell)
          && s.tables.files[fd].cell < |run|
          && s.tables.files[fd].cloexec == CloexecOf(run, fd))
  }

  ghost predicate Inv(s: State, run: seq<Event>) {
    Inverse(s.tables) && s.clock == |run| && forall fd :: Agrees(s, run, fd)
  }

  /** The maps are inverse after every prefix of the run. */
  ghost predicate InverseThroughout(run: seq<Event>)
    requires Exec(run).Some?
  {
    run == [] || (InverseThroughout(run[..|run| - 1]) && Inverse(Exec(run).value.tables))
  }

  ghost predicate EachKeepsMaps(run: seq<Event>)
    requires Exec(run).Some?
  {
    run == [] ||
      (EachKeepsMaps(run[..|run| - 1]) && KeepsMaps(Exec(run[..|run| - 1]).value, run[|run| - 1]))
  }

  /** After every prefix of the run the tables say what the run says. */
  ghost predicate FollowedThroughout(run: seq<Event>)
    requires Exec(run).Some?
  {
    run == [] || (FollowedThroughout(run[..|run| - 1]) && Inv(Exec(run).value, run))
  }

  ghost predicate EachKeepsMeaning(run: seq<Event>)
    requires Exec(run).Some?
  {
    run == [] ||
      (EachKeepsMeaning(run[..|run| - 1]) && KeepsMeaning(Exec(run[..|run| - 1]).value, run[|run| - 1]))
  }

  lemma StepKeepsInverseExactly(s: State, e: Event)
    requires Inverse(s.tables) && Possible(s, e)
    ensures Inverse(Next(s, e).tables) <==> KeepsMaps(s, e)
  {
    match e
    case Open(path, fd, _, cloexec) => AddKeepsInverse(s.tables, path, fd, s.clock, cloexec);
    case DupFd(oldfd, newfd, cloexec) => DupKeepsInverse(s.tables, oldfd, newfd, cloexec);
    case Close(fd) => DeleteKeepsInverse(s.tables, fd);
    case Unlink(path) => DeletePathKeepsInverse(s.tables, path);
    case Move(oldpath, newpath) => RenameKeepsInverse(s.tables, oldpath, newpath);
    case _ =>
  }

  /** The maps stay inverse along a run if and only if each event finds a target that keeps them so. */
  lemma {:induction false} InverseExactly(run: seq<Event>)
    requires Exec(run).Some?
    ensures InverseThroughout(run) <==> EachKeepsMaps(run)
    ensures InverseThroughout(run) ==> Inverse(Exec(run).value.tables)
  {
    if run != [] {
      var before, e := run[..|run| - 1], run[|run| - 1];
      InverseExactly(before);
      if InverseThroughout(before) { StepKeepsInverseExactly(Exec(before).value, e); }
    }
  }

  lemma StepAgrees(s: State, before: seq<Event>, e: Event, fd: Fd)
    requires Inv(s, before) && Possible(s, e) && KeepsMeaning(s, e)
    ensures Agrees(Next(s, e), before + [e], fd)
  {
    var run := before + [e];
    assert run[|run| - 1] == e && run[..|run| - 1] == before;
    assert Agrees(s, before, fd);
    match e
    case DupFd(oldfd, newfd, _) => assert Agrees(s, before, oldfd);
    case Seek(f, _) => assert Agrees(s, before, f);
    case Unlink(path) => DeletePathRemovesItsFds(s.tables, path, fd);
    case _ =>
  }

  /** An event that does not keep the meaning leaves the tables wrong about its own target. */
  lemma StepDisagrees(s: State, before: seq<Event>, e: Event)
    requires Inv(s, before) && Possible(s, e) && KeepsMaps(s, e) && !KeepsMeaning(s, e)
    ensures (e.Open? || e.DupFd?) && !Agrees(Next(s, e), before + [e], if e.Open? then e.fd else e.newfd)
  {
    var run := before + [e];
    assert run[|run| - 1] == e && run[..|run| - 1] == before;
    match e
    case Open(_, fd, _, _) => assert Agrees(s, before, fd);
    case DupFd(oldfd, newfd, _) => assert Agrees(s, before, oldfd) && Agrees(s, before, newfd);
  }

  lemma StepFollowsExactly(s: State, before: seq<Event>, e: Event)
    requires Inv(s, before) && Possible(s, e)
    ensures Inv(Next(s, e), before + [e]) <==> KeepsMeaning(s, e)
  {
    StepKeepsInverseExactly(s, e);
    if KeepsMeaning(s, e) {
      forall fd ensures Agrees(Next(s, e), before + [e], fd) { StepAgrees(s, before, e, fd); }
    } else if KeepsMaps(s, e) {
      StepDisagrees(s, before, e);
    }
  }

  /**
   * Along a run that asks only for what `at` needs, the tables say of every
   * descriptor what the run says of it, if and only if each event finds a
   * fresh target or one that already is what it should be.
   */
  lemma {:induction false} TablesFollowTheRunExactly(run: seq<Event>)
    requires Exec(run).Some?
    ensures FollowedThroughout(run) <==> EachKeepsMeaning(run)
    ensures FollowedThroughout(run) ==> Inv(Exec(run).value, run)
  {
    if run != [] {
      var before, e := run[..|run| - 1], run[|run| - 1];
      TablesFollowTheRunExactly(before);
      if FollowedThroughout(before) {
        assert run == before + [e];
        StepFollowsExactly(Exec(before).value, before, e);
      }
    }
  }

  lemma ExecOneMore(run: seq<Event>, e: Event)
    requires Exec(run).Some? && Possible(Exec(run).value, e)
    ensures Exec(run + [e]) == Some(Next(Exec(run).value, e))
  {
    assert (run + [e])[..|run + [e]| - 1] == run;
  }

  /** Opening a file under a path that lists no descriptor. */
  lemma AddToNothing<C>(t: Tables<C>, path: Path, fd: Fd, cell: C)
    requires path in t.paths ==> t.paths[path] == {}
    requires fd !in t.descriptors && fd !in t.files
    ensures Add(t, path, fd, cell, false)
         == Tables(t.paths[path := {fd}], t.descriptors[fd := path], t.files[fd := Entry(cell, false)])
  {
    var none: set<Fd> := {};
    assert none + {fd} == {fd};
    assert InsertNew(t.paths, path, {})[path] == none;
    assert Add(t, path, fd, cell, false).paths == t.paths[path := {fd}];
  }

  /** The first event of a run that opens a file. */
  lemma AfterOpen(a: Path, fd: Fd)
    ensures Exec([Open(a, fd, 0, false)])
         == Some(State(Tables(map[a := {fd}], map[fd := a], map[fd := Entry(0, false)]), map[0 := 0], 1))
  {
    ExecOneMore([], Open(a, fd, 0, false));
    assert [] + [Open(a, fd, 0, false)] == [Open(a, fd, 0, false)];
    AddToNothing(START.tables, a, fd, 0);
  }

  /**
   * A file is opened and closed, another is opened and renamed to it: the maps
   * are broken, and the descriptor cannot be closed any more.
   */
  lemma RenameOntoClosedPath(a: Path, b: Path)
    requires a != b
    ensures var run := [Open(a, 3, 0, false), Close(3), Open(b, 4, 0, false)];
            && Exec(run).Some? && Possible(Exec(run).value, Move(b, a))
            && var u := Next(Exec(run).value, Move(b, a)).tables;
               !Inverse(u) && 4 in u.files && !Tracked(u, 4)
  {
    var e1, e2, e3 := Open(a, 3, 0, false), Close(3), Open(b, 4, 0, false);
    AfterOpen(a, 3);
    var s1 := Exec([e1]).value;
    ExecOneMore([e1], e2);
    assert [e1] + [e2] == [e1, e2] && [e1, e2] + [e3] == [e1, e2, e3];
    var s2 := Next(s1, e2);
    assert s2.tables == Tables(map[a := {}], map[], map[]);
    ExecOneMore([e1, e2], e3);
    var t := Next(s2, e3).tables;
    AddToNothing(s2.tables, b, 4, 2);
    assert t.paths == map[a := {}, b := {4}] && t.descriptors == map[4 := b];
    RenameKeepsInverse(t, b, a);
    RenameStrandsExactly(t, b, a, 4);
  }

  /** dup2 onto an open descriptor, which is not deleted first: its offset is not shared, and the maps are broken. */
  lemma DupOntoOpenDescriptor(a: Path, b: Path)
    requires a != b
    ensures var run := [Open(a, 3, 0, false), Open(b, 4, 0, false)];
            && Exec(run).Some? && Possible(Exec(run).value, DupFd(3, 4, false))
            && var u := Next(Exec(run).value, DupFd(3, 4, false)).tables;
               !Inverse(u) && u.files[4].cell != u.files[3].cell && u.descriptors[4] == b
  {
    var e1, e2 := Open(a, 3, 0, false), Open(b, 4, 0, false);
    AfterOpen(a, 3);
    ExecOneMore([e1], e2);
    assert [e1] + [e2] == [e1, e2];
    var t := Next(Exec([e1]).value, e2).tables;
    AddToNothing(Exec([e1]).value.tables, b, 4, 1);
    assert t.paths == map[a := {3}, b := {4}] && t.descriptors == map[3 := a, 4 := b];
    DupKeepsInverse(t, 3, 4, false);
  }

  /** Two descriptors share an offset exactly when dups lead both back to one open. */
  lemma SharedExactlyWhenLinked(run: seq<Event>, a: Fd, b: Fd)
    requires Exec(run).Some? && EachKeepsMeaning(run)
    ensures var files := Exec(run).value.tables.files;
            a in files && b in files ==>
              (files[a].cell == files[b].cell <==> Description(run, a) == Description(run, b))
  {
    TablesFollowTheRunExactly(run);
    assert Agrees(Exec(run).value, run, a) && Agrees(Exec(run).value, run, b);
  }

  function Offset(s: State, fd: Fd): Option<U64> {
    if fd in s.tables.files && s.tables.files[fd].cell in s.offsets then Some(s.offsets[s.tables.files[fd].cell])
    else None
  }

  /** A seek moves the whole class of its descriptor and nothing else. */
  lemma SeekMovesItsClass(run: seq<Event>, fd: Fd, offset: U64, other: Fd)
    requires Exec(run).Some? && EachKeepsMeaning(run) && Possible(Exec(run).value, Seek(fd, offset))
    ensures var s := Exec(run).value;
            var t := Next(s, Seek(fd, offset));
            && t.tables == s.tables
            && (other in s.tables.files ==>
                  Offset(t, other)
                  == if Description(run, other) == Description(run, fd) then Some(offset) else Offset(s, other))
  {
    TablesFollowTheRunExactly(run);
    assert Agrees(Exec(run).value, run, fd) && Agrees(Exec(run).value, run, other);
  }
}
