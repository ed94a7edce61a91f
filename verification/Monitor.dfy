/** One pass of the polling monitor over a file system that does not change meanwhile. */
module Monitor {
  import opened Types
  import opened ServerState
  import opened ServerFacts
  import opened Server

  /** Every thread waits in one place at most: one position of one list, or under one path for data. */
  ghost predicate WaitsOnce(s: State) {
    && (forall p, q, i, j | p in s.awaitingCreation && q in s.awaitingCreation
          && 0 <= i < |s.awaitingCreation[p]| && 0 <= j < |s.awaitingCreation[q]|
          && s.awaitingCreation[p][i] == s.awaitingCreation[q][j] :: p == q && i == j)
    && (forall p, q, t | p in s.awaitingData && q in s.awaitingData
          && t in s.awaitingData[p] && t in s.awaitingData[q] :: p == q)
    && (forall p, q, i | p in s.awaitingCreation && q in s.awaitingData && 0 <= i < |s.awaitingCreation[p]| ::
          s.awaitingCreation[p][i] !in s.awaitingData[q])
  }

  ghost predicate NoEmptyWaiters(s: State) {
    forall p | p in s.awaitingData :: s.awaitingData[p] != map[]
  }

  /** The thread waits for the creation of an existing path already visited. */
  ghost predicate CreationHit(s: State, env: Env, visited: set<Path>, p: Path, t: Tid) {
    p in visited && p in env.fs && p in s.awaitingCreation && t in s.awaitingCreation[p]
  }

  /** The thread waits for data of an existing path already visited, and its release condition holds. */
  ghost predicate DataHit(s: State, env: Env, visited: set<Path>, p: Path, t: Tid) {
    p in visited && p in env.fs && p in s.awaitingData && t in s.awaitingData[p] && Releasable(s, env, p, t)
  }

  /** What the response queue of a thread has become. */
  ghost predicate Answers(
    s: State, env: Env, created: set<Path>, filled: set<Path>, t: Tid, before: seq<U64>, after: seq<U64>)
  {
    && (forall p | CreationHit(s, env, created, p, t) :: after == before + [1])
    && (forall p | DataHit(s, env, filled, p, t) :: after == before + [ReleaseValue(env.fs, p)])
    && ((forall p :: !CreationHit(s, env, created, p, t) && !DataHit(s, env, filled, p, t)) ==> after == before)
  }

  /** The waiters left under a path. */
  ghost function Left(s: State, env: Env, p: Path): map<Tid, U64>
    requires p in s.awaitingData
  {
    s.awaitingData[p] - Released(s, env, p)
  }

  /** What has become of the data waiters of one path. */
  ghost predicate DataWaitsAt(s: State, env: Env, filled: set<Path>, u: State, p: Path) {
    if p !in s.awaitingData then p !in u.awaitingData
    else if p in filled && p in env.fs then
      && (p in u.awaitingData <==> Left(s, env, p) != map[])
      && (p in u.awaitingData ==> u.awaitingData[p] == Left(s, env, p))
    else p in u.awaitingData && u.awaitingData[p] == s.awaitingData[p]
  }

  /** What the wait maps have become. */
  ghost predicate Waits(s: State, env: Env, created: set<Path>, filled: set<Path>, u: State) {
    && (forall p :: p in u.awaitingCreation <==> p in s.awaitingCreation && !(p in created && p in env.fs))
    && (forall p | p in u.awaitingCreation :: u.awaitingCreation[p] == s.awaitingCreation[p])
    && (forall p :: DataWaitsAt(s, env, filled, u, p))
  }

  ghost predicate SameRest(s: State, u: State) {
    && u.locations == s.locations && u.tokens == s.tokens && u.appNames == s.appNames && u.produced == s.produced
    && u.responses.Keys == s.responses.Keys
  }

  ghost predicate Progress(s: State, env: Env, created: set<Path>, filled: set<Path>, u: State) {
    && SameRest(s, u) && Waits(s, env, created, filled, u)
    && (forall t | t in s.responses :: Answers(s, env, created, filled, t, s.responses[t], u.responses[t]))
  }

  lemma {:induction false} ReplyEachAt(r: Responses, tids: seq<Tid>, v: U64, t: Tid)
    requires t in r && forall i, j | 0 <= i < j < |tids| :: tids[i] != tids[j]
    ensures t in ReplyEach(r, tids, v)
    ensures ReplyEach(r, tids, v)[t] == if t in tids then r[t] + [v] else r[t]
  {
    if tids != [] {
      var front := tids[..|tids| - 1];
      ReplyEachAt(r, front, v, t);
      assert t in tids <==> t in front || t == tids[|tids| - 1];
    }
  }

  lemma VisitCreationAnswers(s: State, env: Env, created: set<Path>, u: State, path: Path, t: Tid)
    requires WaitsOnce(s) && SameRest(s, u) && Waits(s, env, created, {}, u) && t in s.responses
    requires Answers(s, env, created, {}, t, s.responses[t], u.responses[t])
    ensures var w := MonitorCreation(u, env, path);
            t in w.responses && Answers(s, env, created + {path}, {}, t, s.responses[t], w.responses[t])
  {
    assert forall p :: CreationHit(s, env, created + {path}, p, t)
                  <==> CreationHit(s, env, created, p, t) || (p == path && CreationHit(s, env, {path}, p, t));
    if path in env.fs && path in u.awaitingCreation {
      var tids := s.awaitingCreation[path];
      assert forall i, j | 0 <= i < j < |tids| :: tids[i] != tids[j];
      ReplyEachAt(u.responses, tids, 1, t);
      if t in tids {
        assert forall p :: !CreationHit(s, env, created, p, t) && !DataHit(s, env, {}, p, t);
        assert CreationHit(s, env, created + {path}, path, t);
      }
    } else {
      assert path in env.fs && path in s.awaitingCreation ==> path in created;
      assert forall p :: CreationHit(s, env, created + {path}, p, t) <==> CreationHit(s, env, created, p, t);
    }
  }

  lemma VisitCreation(s: State, env: Env, created: set<Path>, u: State, path: Path)
    requires WaitsOnce(s) && Progress(s, env, created, {}, u)
    ensures Progress(s, env, created + {path}, {}, MonitorCreation(u, env, path))
  {
    UnlockCreationAnswers(u, path);
    forall p ensures DataWaitsAt(s, env, {}, MonitorCreation(u, env, path), p) {
      assert DataWaitsAt(s, env, {}, u, p);
    }
    forall t | t in s.responses
      ensures Answers(s, env, created + {path}, {}, t, s.responses[t], MonitorCreation(u, env, path).responses[t])
    {
      VisitCreationAnswers(s, env, created, u, path, t);
    }
  }

  lemma SameCondition(s: State, u: State, env: Env, p: Path, t: Tid)
    requires u.locations == s.locations && u.tokens == s.tokens && u.appNames == s.appNames
    ensures Releasable(u, env, p, t) <==> Releasable(s, env, p, t)
  {
  }

  lemma SameReleased(s: State, u: State, env: Env, p: Path)
    requires u.locations == s.locations && u.tokens == s.tokens && u.appNames == s.appNames
    requires p in s.awaitingData && p in u.awaitingData && u.awaitingData[p] == s.awaitingData[p]
    ensures Released(u, env, p) == Released(s, env, p)
  {
    forall t | t in s.awaitingData[p] ensures Releasable(u, env, p, t) <==> Releasable(s, env, p, t) {
      SameCondition(s, u, env, p, t);
    }
  }

  lemma VisitDataAnswers(s: State, env: Env, created: set<Path>, filled: set<Path>, u: State, path: Path, t: Tid)
    requires WaitsOnce(s) && SameRest(s, u) && Waits(s, env, created, filled, u) && path !in filled && t in s.responses
    requires Answers(s, env, created, filled, t, s.responses[t], u.responses[t])
    ensures var w := MonitorData(u, env, path);
            t in w.responses && Answers(s, env, created, filled + {path}, t, s.responses[t], w.responses[t])
  {
    assert DataWaitsAt(s, env, filled, u, path);
    if path in env.fs && path in u.awaitingData {
      SameReleased(s, u, env, path);
    }
    assert forall p :: DataHit(s, env, filled + {path}, p, t)
                  <==> DataHit(s, env, filled, p, t) || (p == path && DataHit(s, env, {path}, p, t));
    if DataHit(s, env, {path}, path, t) {
      assert forall p :: !DataHit(s, env, filled, p, t) && !CreationHit(s, env, created, p, t);
      assert DataHit(s, env, filled + {path}, path, t);
    }
  }

  lemma VisitDataWaitsAt(s: State, env: Env, filled: set<Path>, u: State, path: Path, p: Path)
    requires SameRest(s, u) && DataWaitsAt(s, env, filled, u, p) && path !in filled
    ensures DataWaitsAt(s, env, filled + {path}, MonitorData(u, env, path), p)
  {
    if path in env.fs && path in u.awaitingData && p == path {
      if p in s.awaitingData { SameReleased(s, u, env, path); }
    }
  }

  lemma VisitDataWaits(s: State, env: Env, created: set<Path>, filled: set<Path>, u: State, path: Path)
    requires SameRest(s, u) && Waits(s, env, created, filled, u) && path !in filled
    ensures Waits(s, env, created, filled + {path}, MonitorData(u, env, path))
  {
    forall p ensures DataWaitsAt(s, env, filled + {path}, MonitorData(u, env, path), p) {
      VisitDataWaitsAt(s, env, filled, u, path, p);
    }
  }

  lemma VisitDataRest(s: State, env: Env, u: State, path: Path)
    requires SameRest(s, u)
    ensures SameRest(s, MonitorData(u, env, path))
  {
    UnlockDataAnswers(u, env, path);
  }

  lemma VisitData(s: State, env: Env, created: set<Path>, filled: set<Path>, u: State, path: Path)
    requires WaitsOnce(s) && Progress(s, env, created, filled, u) && path !in filled
    ensures Progress(s, env, created, filled + {path}, MonitorData(u, env, path))
  {
    VisitDataWaits(s, env, created, filled, u, path);
    VisitDataRest(s, env, u, path);
    forall t | t in s.responses
      ensures Answers(s, env, created, filled + {path}, t, s.responses[t], MonitorData(u, env, path).responses[t])
    {
      VisitDataAnswers(s, env, created, filled, u, path, t);
    }
  }

  /**
   * The whole pass: creation waiters of existing paths and releasable data
   * waiters of existing paths are answered, all others stay with their sizes.
   */
  ghost predicate PassResult(s: State, env: Env, u: State) {
    Progress(s, env, s.awaitingCreation.Keys, s.awaitingData.Keys, u)
  }

  lemma PassLeavesNoEmptyWaiters(s: State, env: Env, u: State)
    requires NoEmptyWaiters(s) && PassResult(s, env, u)
    ensures NoEmptyWaiters(u)
  {
    assert forall p | p in u.awaitingData :: DataWaitsAt(s, env, s.awaitingData.Keys, u, p);
  }

  /** Reading the result for one thread that waits for data. */
  lemma PassForDataWaiter(s: State, env: Env, u: State, p: Path, t: Tid)
    requires WaitsOnce(s) && PassResult(s, env, u) && p in s.awaitingData && t in s.awaitingData[p] && t in s.responses
    ensures if p in env.fs && Releasable(s, env, p, t) then
              && u.responses[t] == s.responses[t] + [ReleaseValue(env.fs, p)]
              && (p in u.awaitingData ==> t !in u.awaitingData[p])
            else
              && u.responses[t] == s.responses[t]
              && p in u.awaitingData && t in u.awaitingData[p] && u.awaitingData[p][t] == s.awaitingData[p][t]
  {
    assert Answers(s, env, s.awaitingCreation.Keys, s.awaitingData.Keys, t, s.responses[t], u.responses[t]);
    assert forall q :: !CreationHit(s, env, s.awaitingCreation.Keys, q, t);
    assert DataHit(s, env, s.awaitingData.Keys, p, t) <==> p in env.fs && Releasable(s, env, p, t);
    assert DataWaitsAt(s, env, s.awaitingData.Keys, u, p);
    if !(p in env.fs && Releasable(s, env, p, t)) {
      assert forall q :: !DataHit(s, env, s.awaitingData.Keys, q, t);
      if p in env.fs { assert t in Left(s, env, p); }
    }
  }

  /** Reading the result for one thread that waits for a file to be created. */
  lemma PassForCreationWaiter(s: State, env: Env, u: State, p: Path, t: Tid)
    requires WaitsOnce(s) && PassResult(s, env, u)
    requires p in s.awaitingCreation && t in s.awaitingCreation[p] && t in s.responses
    ensures u.responses[t] == if p in env.fs then s.responses[t] + [1] else s.responses[t]
    ensures p in u.awaitingCreation <==> p !in env.fs
    ensures p in u.awaitingCreation ==> u.awaitingCreation[p] == s.awaitingCreation[p]
  {
    assert Answers(s, env, s.awaitingCreation.Keys, s.awaitingData.Keys, t, s.responses[t], u.responses[t]);
    assert CreationHit(s, env, s.awaitingCreation.Keys, p, t) <==> p in env.fs;
    assert forall q :: CreationHit(s, env, s.awaitingCreation.Keys, q, t) ==> q == p;
    assert forall q :: !DataHit(s, env, s.awaitingData.Keys, q, t);
  }

  // ---- The pass itself ----

  /** The loop over the paths awaited for creation; deleting the list is part of unlocking it. */
  method CreationPass(fm: CapioFileManager, env: Env)
    requires Ready(fm, env) && WaitsOnce(fm.State())
    modifies fm, fm.clientManager
    ensures Progress(old(fm.State()), env, old(fm.State()).awaitingCreation.Keys, {}, fm.State())
  {
    ghost var s := fm.State();
    var todo := fm.threadAwaitingFileCreation.Keys;
    ghost var visited: set<Path> := {};
    while todo != {}
      invariant visited + todo == s.awaitingCreation.Keys
      invariant Progress(s, env, visited, {}, fm.State()) && Ready(fm, env)
    {
      var file :| file in todo;
      VisitCreation(s, env, visited, fm.State(), file);
      UnlockCreationAnswers(fm.State(), file);
      if file in env.fs {
        fm.UnlockThreadAwaitingCreation(file);
      }
      visited, todo := visited + {file}, todo - {file};
    }
    assert visited == s.awaitingCreation.Keys;
  }

  /** The loop over the paths awaited for data. */
  method DataPass(fm: CapioFileManager, env: Env, ghost s: State)
    requires Ready(fm, env) && WaitsOnce(s) && Progress(s, env, s.awaitingCreation.Keys, {}, fm.State())
    modifies fm, fm.clientManager
    ensures PassResult(s, env, fm.State())
  {
    var todo := fm.threadAwaitingData.Keys;
    assert forall p :: p in fm.threadAwaitingData <==> p in s.awaitingData by {
      forall p ensures p in fm.threadAwaitingData <==> p in s.awaitingData {
        assert DataWaitsAt(s, env, {}, fm.State(), p);
      }
    }
    ghost var visited: set<Path> := {};
    while todo != {}
      invariant visited + todo == s.awaitingData.Keys && visited !! todo
      invariant Progress(s, env, s.awaitingCreation.Keys, visited, fm.State()) && Ready(fm, env)
    {
      var file :| file in todo;
      ghost var u := fm.State();
      VisitData(s, env, s.awaitingCreation.Keys, visited, u, file);
      UnlockDataAnswers(u, env, file);
      AnswersKeepKnown(u, UnlockData(u, env, file));
      if file in env.fs {
        fm.CheckAndUnlockThreadAwaitingData(env, file);
      }
      assert fm.State() == MonitorData(u, env, file) && WaitersKnown(fm.State()) && fm.engine.locations == u.locations;
      visited, todo := visited + {file}, todo - {file};
    }
    assert visited == s.awaitingData.Keys;
  }

  method MonitorPass(fm: CapioFileManager, env: Env)
    requires Ready(fm, env) && WaitsOnce(fm.State())
    modifies fm, fm.clientManager
    ensures PassResult(old(fm.State()), env, fm.State())
  {
    ghost var s := fm.State();
    CreationPass(fm, env);
    ProgressKeepsKnown(s, env, s.awaitingCreation.Keys, fm.State());
    DataPass(fm, env, s);
  }

  lemma ProgressKeepsKnown(s: State, env: Env, created: set<Path>, u: State)
    requires WaitersKnown(s) && Progress(s, env, created, {}, u)
    ensures WaitersKnown(u)
  {
    assert forall p | p in u.awaitingData :: DataWaitsAt(s, env, {}, u, p);
  }
}
