/** Where a thread whose request was handled can be found, and how operations of the server move it. */
module Places {
  import opened Types
  import opened Requests
  import opened CommitRules
  import opened ServerState
  import opened ServerFacts

  /** A position of a list of creation waiters, the data waiters of a path, or a position of the response queue. */
  datatype Place =
    | AwaitsCreation(path: Path, index: nat)
    | AwaitsData(path: Path)
    | Answered(position: nat)

  predicate At(s: State, t: Tid, place: Place) {
    match place
    case AwaitsCreation(p, i) => p in s.awaitingCreation && i < |s.awaitingCreation[p]| && s.awaitingCreation[p][i] == t
    case AwaitsData(p) => p in s.awaitingData && t in s.awaitingData[p]
    case Answered(i) => t in s.responses && i < |s.responses[t]|
  }

  /** The thread is in this place and in no other. */
  ghost predicate Rests(s: State, t: Tid, place: Place) {
    At(s, t, place) && forall q :: At(s, t, q) ==> q == place
  }

  ghost predicate Nowhere(s: State, t: Tid) {
    forall q :: !At(s, t, q)
  }

  ghost predicate Settled(s: State, t: Tid) {
    Nowhere(s, t) || exists place :: Rests(s, t, place)
  }

  /** The place and the size waited for are those the request asks for. */
  predicate Suits(s: State, r: Request, place: Place) {
    && At(s, r.tid, place)
    && (place.AwaitsCreation? ==> r.Open? && r.path == place.path)
    && (place.AwaitsData? ==>
          && (r.Consent? || r.Read?) && r.path == place.path
          && s.awaitingData[place.path][r.tid] == if r.Read? then r.end else 0)
  }

  ghost predicate SamePlaces(s: State, u: State, t: Tid) {
    && (forall q :: At(u, t, q) <==> At(s, t, q))
    && (forall i: nat | At(s, t, Answered(i)) && At(u, t, Answered(i)) :: u.responses[t][i] == s.responses[t][i])
    && (forall p | At(s, t, AwaitsData(p)) && At(u, t, AwaitsData(p)) :: u.awaitingData[p][t] == s.awaitingData[p][t])
  }

  /** Nothing happens to the thread, or it is taken from where it waits and answered, for data only with reason. */
  ghost predicate Wakes(s: State, env: Env, u: State, t: Tid) {
    || SamePlaces(s, u, t)
    || (Rests(u, t, Answered(0))
        && exists place | Rests(s, t, place) ::
             !place.Answered? && (place.AwaitsData? ==> ToldTheSize(u, env, t, place.path)))
  }

  /** The thread may have its answer, and it is the release value. */
  ghost predicate ToldTheSize(u: State, env: Env, t: Tid, path: Path)
    requires At(u, t, Answered(0))
  {
    Releasable(u, env, path, t) && u.responses[t][0] == ReleaseValue(env.fs, path)
  }

  ghost predicate SameRules(s: State, u: State) {
    u.locations == s.locations && u.appNames == s.appNames && TokensGrow(s.tokens, u.tokens)
  }

  lemma StillReleasable(s: State, env: Env, u: State, p: Path, t: Tid)
    requires SameRules(s, u) && Releasable(s, env, p, t)
    ensures Releasable(u, env, p, t)
  {
    if Committed(WorldOf(s, env), p) { CommittedStays(WorldOf(s, env), WorldOf(u, env), p); }
  }

  lemma SameThenRests(s: State, u: State, t: Tid, place: Place)
    requires SamePlaces(s, u, t)
    ensures Rests(s, t, place) <==> Rests(u, t, place)
    ensures Nowhere(s, t) <==> Nowhere(u, t)
  {
    assert At(u, t, place) <==> At(s, t, place);
  }

  lemma WokenSettles(s: State, env: Env, u: State, t: Tid)
    requires Settled(s, t) && Wakes(s, env, u, t)
    ensures Settled(u, t)
  {
    if SamePlaces(s, u, t) {
      if place :| Rests(s, t, place) { SameThenRests(s, u, t, place); }
    }
  }

  /** Where the thread waited, and why it could be answered. */
  lemma WokenFrom(s: State, env: Env, u: State, t: Tid) returns (place: Place)
    requires Wakes(s, env, u, t) && !SamePlaces(s, u, t)
    ensures Rests(s, t, place) && !place.Answered? && Rests(u, t, Answered(0))
    ensures place.AwaitsData? ==> ToldTheSize(u, env, t, place.path)
  {
    place :| Rests(s, t, place) && !place.Answered? && (place.AwaitsData? ==> ToldTheSize(u, env, t, place.path));
  }

  lemma WakesTransitive(s: State, env: Env, u: State, v: State, t: Tid)
    requires Wakes(s, env, u, t) && Wakes(u, env, v, t) && SameRules(u, v)
    ensures Wakes(s, env, v, t)
  {
    if SamePlaces(s, u, t) && !SamePlaces(u, v, t) {
      var place := WokenFrom(u, env, v, t);
      SameThenRests(s, u, t, place);
    } else if !SamePlaces(s, u, t) {
      var place := WokenFrom(s, env, u, t);
      assert SamePlaces(u, v, t);
      SameThenRests(u, v, t, Answered(0));
      if place.AwaitsData? {
        StillReleasable(u, env, v, place.path, t);
        assert v.responses[t][0] == u.responses[t][0];
      }
    }
  }

  // ---- Unlocking the waiters of a path ----

  lemma {:induction false} ReplyEachToOther(r: Responses, tids: seq<Tid>, v: U64, t: Tid)
    requires t in r && t !in tids
    ensures t in ReplyEach(r, tids, v) && ReplyEach(r, tids, v)[t] == r[t]
  {
    if tids != [] { ReplyEachToOther(r, tids[..|tids| - 1], v, t); }
  }

  lemma {:induction false} ReplyEachOnce(r: Responses, tids: seq<Tid>, v: U64, k: nat)
    requires k < |tids| && tids[k] in r && forall i | 0 <= i < |tids| && tids[i] == tids[k] :: i == k
    ensures tids[k] in ReplyEach(r, tids, v) && ReplyEach(r, tids, v)[tids[k]] == r[tids[k]] + [v]
  {
    var front := tids[..|tids| - 1];
    if k == |tids| - 1 {
      ReplyEachToOther(r, front, v, tids[k]);
    } else {
      assert front[k] == tids[k];
      ReplyEachOnce(r, front, v, k);
    }
  }

  lemma AnsweredOnce(s: State, u: State, t: Tid, place: Place, v: U64)
    requires Rests(s, t, place) && !place.Answered? && t in s.responses && t in u.responses
    requires u.responses[t] == s.responses[t] + [v]
    requires !At(u, t, place) && forall q: Place | !q.Answered? && At(u, t, q) :: At(s, t, q)
    ensures Rests(u, t, Answered(0)) && u.responses[t] == [v]
  {
    assert !At(s, t, Answered(0));
    assert u.responses[t] == [v];
  }

  lemma UnlockCreationPasses(s: State, path: Path, t: Tid)
    requires path in s.awaitingCreation && t !in s.awaitingCreation[path]
    ensures SamePlaces(s, UnlockCreation(s, path), t)
  {
    var u := UnlockCreation(s, path);
    if t in s.responses { ReplyEachToOther(s.responses, s.awaitingCreation[path], 1, t); }
    else { ReplyEachKeys(s.responses, s.awaitingCreation[path], 1); }
    forall q ensures At(u, t, q) <==> At(s, t, q) {
      if q.AwaitsCreation? && q.path == path { assert !At(s, t, q); }
    }
  }

  /** It wakes only those who wait for the creation of the path. */
  lemma UnlockCreationOnlyWakes(s: State, path: Path, t: Tid)
    requires WaitersKnown(s) && Settled(s, t)
    ensures var u := UnlockCreation(s, path);
            || (SamePlaces(s, u, t) && !(exists i :: At(s, t, AwaitsCreation(path, i))))
            || (Rests(u, t, Answered(0)) && u.responses[t] == [1] && exists i :: Rests(s, t, AwaitsCreation(path, i)))
  {
    if path in s.awaitingCreation {
      var tids := s.awaitingCreation[path];
      if t in tids {
        var k :| 0 <= k < |tids| && tids[k] == t;
        assert At(s, t, AwaitsCreation(path, k));
        assert Rests(s, t, AwaitsCreation(path, k));
        forall i | 0 <= i < |tids| && tids[i] == t ensures i == k {
          assert At(s, t, AwaitsCreation(path, i));
        }
        ReplyEachOnce(s.responses, tids, 1, k);
        AnsweredOnce(s, UnlockCreation(s, path), t, AwaitsCreation(path, k), 1);
      } else {
        UnlockCreationPasses(s, path, t);
        assert forall i :: !At(s, t, AwaitsCreation(path, i));
      }
    }
  }

  lemma UnlockCreationWakes(s: State, env: Env, path: Path, t: Tid)
    requires WaitersKnown(s) && Settled(s, t)
    ensures Wakes(s, env, UnlockCreation(s, path), t)
  {
    UnlockCreationOnlyWakes(s, path, t);
  }

  lemma UnlockDataPasses(s: State, env: Env, path: Path, t: Tid)
    requires path in s.awaitingData && t !in Released(s, env, path)
    ensures SamePlaces(s, UnlockData(s, env, path), t)
  {
    var u := UnlockData(s, env, path);
    var kept := s.awaitingData[path] - Released(s, env, path);
    assert t in s.awaitingData[path] ==> t in kept && kept != map[];
    forall q ensures At(u, t, q) <==> At(s, t, q) {
      if q.Answered? { assert t in u.responses <==> t in s.responses; }
    }
  }

  /** It wakes only those who wait for data of the path, with reason and with the release value. */
  lemma UnlockDataOnlyWakes(s: State, env: Env, path: Path, t: Tid)
    requires WaitersKnown(s) && Settled(s, t)
    ensures var u := UnlockData(s, env, path);
            || SamePlaces(s, u, t)
            || (Rests(u, t, Answered(0)) && Rests(s, t, AwaitsData(path)) && ToldTheSize(u, env, t, path))
  {
    var u := UnlockData(s, env, path);
    if path in s.awaitingData {
      if t !in Released(s, env, path) {
        UnlockDataPasses(s, env, path, t);
      } else {
        assert At(s, t, AwaitsData(path));
        assert Rests(s, t, AwaitsData(path));
        AnsweredOnce(s, u, t, AwaitsData(path), ReleaseValue(env.fs, path));
        StillReleasable(s, env, u, path, t);
      }
    }
  }

  lemma UnlockDataWakes(s: State, env: Env, path: Path, t: Tid)
    requires WaitersKnown(s) && Settled(s, t)
    ensures Wakes(s, env, UnlockData(s, env, path), t)
  {
    UnlockDataOnlyWakes(s, env, path, t);
  }

  lemma TokenPasses(s: State, path: Path, t: Tid)
    ensures SamePlaces(s, CreateToken(s, path), t) && SameRules(s, CreateToken(s, path))
  {
  }

  lemma DataThenCreationWakes(s: State, env: Env, path: Path, t: Tid)
    requires WaitersKnown(s) && Settled(s, t)
    ensures Wakes(s, env, UnlockCreation(UnlockData(s, env, path), path), t)
  {
    var u := UnlockData(s, env, path);
    UnlockDataWakes(s, env, path, t);
    UnlockDataAnswers(s, env, path);
    AnswersKeepKnown(s, u);
    WokenSettles(s, env, u, t);
    UnlockCreationWakes(u, env, path, t);
    UnlockCreationAnswers(u, path);
    WakesTransitive(s, env, u, UnlockCreation(u, path), t);
  }

  lemma SetCommittedWakes(s: State, env: Env, path: Path, t: Tid)
    requires WaitersKnown(s) && Settled(s, t)
    ensures Wakes(s, env, SetCommitted(s, env, path), t)
  {
    var s1 := CreateToken(s, path);
    TokenPasses(s, path, t);
    WokenSettles(s, env, s1, t);
    DataThenCreationWakes(s1, env, path, t);
    SetCommittedAnswers(s, env, path);
    WakesTransitive(s, env, s1, SetCommitted(s, env, path), t);
  }

  lemma {:induction false} SetAllCommittedWakes(s: State, env: Env, paths: seq<Path>, t: Tid)
    requires WaitersKnown(s) && Settled(s, t)
    ensures Wakes(s, env, SetAllCommitted(s, env, paths), t)
  {
    if paths == [] {
      assert SamePlaces(s, s, t);
    } else {
      var front, last := paths[..|paths| - 1], paths[|paths| - 1];
      var u := SetAllCommitted(s, env, front);
      SetAllCommittedWakes(s, env, front, t);
      WokenSettles(s, env, u, t);
      SetAllCommittedGrows(s, env, front);
      AnswersKeepKnown(s, u);
      SetCommittedWakes(u, env, last, t);
      SetCommittedAnswers(u, env, last);
      WakesTransitive(s, env, u, SetCommitted(u, env, last), t);
    }
  }

  // ---- The sender of a blocking request ----

  /** The sender is answered, or waits where its request says. */
  ghost predicate Served(u: State, r: Request) {
    exists place :: Rests(u, r.tid, place) && Suits(u, r, place)
  }

  lemma ReplyServes(s: State, r: Request, v: U64)
    requires Nowhere(s, r.tid) && r.tid in s.responses
    ensures var u := s.(responses := Reply(s.responses, r.tid, v));
            Rests(u, r.tid, Answered(0)) && Suits(u, r, Answered(0))
  {
    var u := s.(responses := Reply(s.responses, r.tid, v));
    assert !At(s, r.tid, Answered(0));
    assert u.responses[r.tid] == [v];
    forall q | At(u, r.tid, q) ensures q == Answered(0) {
      assert !At(s, r.tid, q);
    }
  }

  lemma AddAwaitingCreationServes(s: State, r: Request)
    requires Nowhere(s, r.tid) && r.Open?
    ensures Served(AddAwaitingCreation(s, r.path, r.tid), r)
  {
    var u := AddAwaitingCreation(s, r.path, r.tid);
    var place := AwaitsCreation(r.path, |u.awaitingCreation[r.path]| - 1);
    forall q | At(u, r.tid, q) ensures q == place {
      assert !At(s, r.tid, q);
    }
    assert Rests(u, r.tid, place) && Suits(u, r, place);
  }

  lemma AddAwaitingDataServes(s: State, r: Request)
    requires Nowhere(s, r.tid) && (r.Consent? || r.Read?)
    ensures var u := AddAwaitingData(s, r.path, r.tid, if r.Read? then r.end else 0);
            Rests(u, r.tid, AwaitsData(r.path)) && Suits(u, r, AwaitsData(r.path))
  {
    var u := AddAwaitingData(s, r.path, r.tid, if r.Read? then r.end else 0);
    assert !At(s, r.tid, AwaitsData(r.path));
    forall q | At(u, r.tid, q) ensures q == AwaitsData(r.path) {
      assert !At(s, r.tid, q);
    }
  }

  lemma BlockingServes(s: State, env: Env, r: Request)
    requires Nowhere(s, r.tid) && r.tid in s.responses && r.Blocking()
    ensures Served(Handle(s, env, r), r)
  {
    match r
    case Consent(tid, path, _) =>
      if ConsentNow(s, env, tid, path) { ReplyServes(s, r, 1); } else { AddAwaitingDataServes(s, r); }
    case Open(tid, _, path) =>
      if path in env.fs || IsProducer(s, env, path, tid) { ReplyServes(s, r, 1); }
      else { AddAwaitingCreationServes(s, r); }
    case Read(path, tid, _, end) =>
      match ReadAnswer(s, env, tid, path, end)
      case Some(v) => ReplyServes(s, r, v);
      case None => AddAwaitingDataServes(s, r);
  }

  // ---- Everybody else ----

  lemma ReplyPasses(s: State, tid: Tid, v: U64, t: Tid)
    requires t != tid
    ensures SamePlaces(s, s.(responses := Reply(s.responses, tid, v)), t)
  {
  }

  lemma AddAwaitingCreationPasses(s: State, path: Path, tid: Tid, t: Tid)
    requires t != tid
    ensures SamePlaces(s, AddAwaitingCreation(s, path, tid), t)
  {
  }

  lemma AddAwaitingDataPasses(s: State, path: Path, tid: Tid, size: U64, t: Tid)
    requires t != tid
    ensures SamePlaces(s, AddAwaitingData(s, path, tid, size), t)
  {
  }

  lemma BlockingPasses(s: State, env: Env, r: Request, t: Tid)
    requires r.Blocking() && t != r.tid
    ensures SamePlaces(s, Handle(s, env, r), t)
  {
    match r
    case Consent(tid, path, _) =>
      if ConsentNow(s, env, tid, path) { ReplyPasses(s, tid, 1, t); }
      else { AddAwaitingDataPasses(s, path, tid, 0, t); }
    case Open(tid, _, path) =>
      if path in env.fs || IsProducer(s, env, path, tid) { ReplyPasses(s, tid, 1, t); }
      else { AddAwaitingCreationPasses(s, path, tid, t); }
    case Read(path, tid, _, end) =>
      match ReadAnswer(s, env, tid, path, end)
      case Some(v) => ReplyPasses(s, tid, v, t);
      case None => AddAwaitingDataPasses(s, path, tid, end, t);
  }

  lemma RegisterPasses(s: State, tid: Tid, app: string, t: Tid)
    ensures SamePlaces(s, Register(s, tid, app), t)
  {
  }

  lemma CountPasses(s: State, path: Path, t: Tid)
    ensures SamePlaces(s, IncreaseCloseCount(s, path), t) && SameRules(s, IncreaseCloseCount(s, path))
  {
  }

  lemma EntriesPass(s: State, l: Locations, t: Tid)
    ensures SamePlaces(s, s.(locations := l), t)
  {
  }

  lemma CloseWakes(s: State, env: Env, tid: Tid, path: Path, t: Tid)
    requires WaitersKnown(s) && Settled(s, t)
    ensures Wakes(s, env, HandleClose(s, env, tid, path), t)
  {
    if AcceptedClose(s, env, tid, path) {
      var u := SetCommitted(s, env, path);
      SetCommittedWakes(s, env, path, t);
      CountPasses(u, path, t);
      WakesTransitive(s, env, u, IncreaseCloseCount(u, path), t);
    } else {
      assert SamePlaces(s, s, t);
    }
  }

  lemma CreateWakes(s: State, env: Env, tid: Tid, path: Path, t: Tid)
    requires WaitersKnown(s) && Settled(s, t)
    ensures Wakes(s, env, HandleCreate(s, env, tid, path), t)
  {
    var v, u := UnlockCreation(s, path), HandleCreate(s, env, tid, path);
    UnlockCreationOnlyWakes(s, path, t);
    EntriesPass(v, u.locations, t);
    if SamePlaces(s, v, t) { assert SamePlaces(s, u, t); } else { SameThenRests(v, u, t, Answered(0)); }
  }

  lemma RemovePasses(s: State, tid: Tid, t: Tid)
    requires t == tid ==> Nowhere(s, t)
    ensures SamePlaces(s, Remove(s, tid), t)
  {
  }

  /** Who exits is nowhere, and whoever else is somewhere keeps that place. */
  lemma ExitWakes(s: State, env: Env, tid: Tid, t: Tid)
    requires WaitersKnown(s) && Settled(s, t) && (t == tid ==> Nowhere(s, t))
    ensures Wakes(s, env, HandleExit(s, env, tid), t)
  {
    var paths := if tid in s.produced then s.produced[tid] else [];
    var u := SetAllCommitted(s, env, paths);
    SetAllCommittedWakes(s, env, paths, t);
    var v := HandleExit(s, env, tid);
    if t == tid {
      assert SamePlaces(s, u, t);
      SameThenRests(s, u, t, Answered(0));
    }
    RemovePasses(u, tid, t);
    WakesTransitive(s, env, u, v, t);
  }

  /** A request moves nobody but its sender, unless it wakes them. */
  lemma HandleWakes(s: State, env: Env, r: Request, t: Tid)
    requires WaitersKnown(s) && Settled(s, t)
    requires t == r.tid ==> !r.Blocking() && Nowhere(s, t)
    ensures Wakes(s, env, Handle(s, env, r), t)
  {
    if r.Blocking() { BlockingPasses(s, env, r, t); }
    else {
      match r
      case Close(tid, path) => CloseWakes(s, env, tid, path, t);
      case Create(tid, _, path) => CreateWakes(s, env, tid, path, t);
      case ExitGroup(tid) => ExitWakes(s, env, tid, t);
      case HandshakeNamed(tid, _, app) => RegisterPasses(s, tid, app, t);
      case HandshakeAnonymous(tid, _) => RegisterPasses(s, tid, DEFAULT_APP_NAME, t);
      case Rename(_, _, newPath) => UnlockCreationWakes(s, env, newPath, t);
      case Write(_, _, path, _) => UnlockDataWakes(s, env, path, t);
    }
  }

  // ---- Exactly what a request does to one waiter ----

  /** The requests that answer those who wait for the creation of a path. */
  predicate Announces(s: State, env: Env, r: Request, p: Path) {
    || (r.Create? && r.path == p)
    || (r.Rename? && r.new_path == p)
    || (r.Close? && r.path == p && AcceptedClose(s, env, r.tid, p))
  }

  /** The requests that make the server look at those who wait for data of a path. */
  predicate LooksAt(s: State, env: Env, r: Request, p: Path) {
    || (r.Write? && r.path == p && env.rules.handled(p))
    || (r.Close? && r.path == p && AcceptedClose(s, env, r.tid, p))
  }

  /** A close makes sure of the token before it looks. */
  function WhenLooking(s: State, r: Request): State {
    if r.Close? then CreateToken(s, r.path) else s
  }

  lemma UnlockCreationOfOthers(s: State, path: Path, t: Tid, place: Place)
    requires WaitersKnown(s) && Rests(s, t, place) && !(place.AwaitsCreation? && place.path == path)
    ensures SamePlaces(s, UnlockCreation(s, path), t)
  {
    UnlockCreationOnlyWakes(s, path, t);
  }

  lemma UnlockDataOfOthers(s: State, env: Env, path: Path, t: Tid, place: Place)
    requires Rests(s, t, place) && place != AwaitsData(path)
    ensures SamePlaces(s, UnlockData(s, env, path), t)
  {
    assert !At(s, t, AwaitsData(path));
    if path in s.awaitingData { UnlockDataPasses(s, env, path, t); }
  }

  lemma SamePlacesTransitive(s: State, u: State, v: State, t: Tid)
    requires SamePlaces(s, u, t) && SamePlaces(u, v, t)
    ensures SamePlaces(s, v, t)
  {
  }

  /** Committing a path answers a thread that waits for its creation, and passes one that waits for another's. */
  lemma SetCommittedForCreation(s: State, env: Env, q: Path, t: Tid, p: Path, i: nat)
    requires WaitersKnown(s) && Rests(s, t, AwaitsCreation(p, i))
    ensures var u := SetCommitted(s, env, q);
            if q == p then Rests(u, t, Answered(0)) && u.responses[t] == [1] else SamePlaces(s, u, t)
  {
    var s1 := CreateToken(s, q);
    TokenPasses(s, q, t);
    SameThenRests(s, s1, t, AwaitsCreation(p, i));
    var s2 := UnlockData(s1, env, q);
    UnlockDataOfOthers(s1, env, q, t, AwaitsCreation(p, i));
    SameThenRests(s1, s2, t, AwaitsCreation(p, i));
    UnlockDataAnswers(s1, env, q);
    AnswersKeepKnown(s1, s2);
    UnlockCreationOnlyWakes(s2, q, t);
    if q != p {
      UnlockCreationOfOthers(s2, q, t, AwaitsCreation(p, i));
      SamePlacesTransitive(s, s1, s2, t);
      SamePlacesTransitive(s, s2, UnlockCreation(s2, q), t);
    } else {
      assert At(s2, t, AwaitsCreation(p, i));
    }
  }

  /** The same for a thread that waits for data: it is answered if it may be released. */
  lemma SetCommittedForData(s: State, env: Env, q: Path, t: Tid, p: Path)
    requires WaitersKnown(s) && Rests(s, t, AwaitsData(p))
    ensures var u := SetCommitted(s, env, q);
            if q == p && Releasable(CreateToken(s, p), env, p, t) then
              Rests(u, t, Answered(0)) && u.responses[t] == [ReleaseValue(env.fs, p)]
            else SamePlaces(s, u, t)
  {
    var s1 := CreateToken(s, q);
    TokenPasses(s, q, t);
    SameThenRests(s, s1, t, AwaitsData(p));
    var s2 := UnlockData(s1, env, q);
    UnlockDataForData(s1, env, q, t, p);
    UnlockDataAnswers(s1, env, q);
    AnswersKeepKnown(s1, s2);
    if q == p && Releasable(s1, env, p, t) {
      UnlockCreationOfOthers(s2, q, t, Answered(0));
      SameThenRests(s2, UnlockCreation(s2, q), t, Answered(0));
      OneAnswerStays(s2, UnlockCreation(s2, q), t);
    } else {
      SameThenRests(s1, s2, t, AwaitsData(p));
      UnlockCreationOfOthers(s2, q, t, AwaitsData(p));
      SamePlacesTransitive(s, s1, s2, t);
      SamePlacesTransitive(s, s2, UnlockCreation(s2, q), t);
    }
  }

  lemma OneAnswerStays(s: State, u: State, t: Tid)
    requires SamePlaces(s, u, t) && Rests(s, t, Answered(0))
    ensures At(u, t, Answered(0)) && u.responses[t] == s.responses[t] && |u.responses[t]| == 1
  {
    assert At(u, t, Answered(0)) && !At(s, t, Answered(1)) && !At(u, t, Answered(1));
  }

  lemma UnlockDataForData(s: State, env: Env, q: Path, t: Tid, p: Path)
    requires WaitersKnown(s) && Rests(s, t, AwaitsData(p))
    ensures var u := UnlockData(s, env, q);
            if q == p && Releasable(s, env, p, t) then
              Rests(u, t, Answered(0)) && u.responses[t] == [ReleaseValue(env.fs, p)]
            else SamePlaces(s, u, t)
  {
    if q != p {
      UnlockDataOfOthers(s, env, q, t, AwaitsData(p));
    } else if Releasable(s, env, p, t) {
      AnsweredOnce(s, UnlockData(s, env, p), t, AwaitsData(p), ReleaseValue(env.fs, p));
    } else {
      UnlockDataPasses(s, env, p, t);
    }
  }

  /**
   * A thread that waits for a creation is answered by a creation, a rename to
   * the path or a committing close of it, and by no other request.
   */
  lemma CreationWaiterExactly(s: State, env: Env, r: Request, t: Tid, p: Path, i: nat)
    requires WaitersKnown(s) && Rests(s, t, AwaitsCreation(p, i)) && t != r.tid
    requires r.ExitGroup? && r.tid in s.produced ==> s.produced[r.tid] == []
    ensures var u := Handle(s, env, r);
            if Announces(s, env, r, p) then Rests(u, t, Answered(0)) && u.responses[t] == [1] else SamePlaces(s, u, t)
  {
    var place := AwaitsCreation(p, i);
    if r.Blocking() { BlockingPasses(s, env, r, t); }
    else {
      match r
      case Close(tid, path) => CloseForCreation(s, env, tid, path, t, p, i);
      case Create(tid, _, path) => CreateForWaiter(s, env, r, t, place);
      case ExitGroup(tid) => RemovePasses(s, tid, t);
      case HandshakeNamed(tid, _, app) => RegisterPasses(s, tid, app, t);
      case HandshakeAnonymous(tid, _) => RegisterPasses(s, tid, DEFAULT_APP_NAME, t);
      case Rename(_, _, newPath) => UnlockCreationOnlyWakes(s, newPath, t);
      case Write(_, _, path, _) => UnlockDataOfOthers(s, env, path, t, place);
    }
  }

  lemma CloseForCreation(s: State, env: Env, tid: Tid, path: Path, t: Tid, p: Path, i: nat)
    requires WaitersKnown(s) && Rests(s, t, AwaitsCreation(p, i))
    ensures var u := HandleClose(s, env, tid, path);
            if path == p && AcceptedClose(s, env, tid, p) then Rests(u, t, Answered(0)) && u.responses[t] == [1]
            else SamePlaces(s, u, t)
  {
    if AcceptedClose(s, env, tid, path) {
      var u := SetCommitted(s, env, path);
      SetCommittedForCreation(s, env, path, t, p, i);
      CountPasses(u, path, t);
      if path == p {
        SameThenRests(u, IncreaseCloseCount(u, path), t, Answered(0));
      } else {
        SamePlacesTransitive(s, u, IncreaseCloseCount(u, path), t);
      }
    }
  }

  lemma CloseForData(s: State, env: Env, tid: Tid, path: Path, t: Tid, p: Path)
    requires WaitersKnown(s) && Rests(s, t, AwaitsData(p))
    ensures var u := HandleClose(s, env, tid, path);
            if path == p && AcceptedClose(s, env, tid, p) && Releasable(CreateToken(s, p), env, p, t) then
              Rests(u, t, Answered(0)) && u.responses[t] == [ReleaseValue(env.fs, p)]
            else SamePlaces(s, u, t)
  {
    if AcceptedClose(s, env, tid, path) {
      var u := SetCommitted(s, env, path);
      SetCommittedForData(s, env, path, t, p);
      CountPasses(u, path, t);
      if path == p && Releasable(CreateToken(s, p), env, p, t) {
        SameThenRests(u, IncreaseCloseCount(u, path), t, Answered(0));
      } else {
        SamePlacesTransitive(s, u, IncreaseCloseCount(u, path), t);
      }
    }
  }

  lemma CreateForWaiter(s: State, env: Env, r: Request, t: Tid, place: Place)
    requires WaitersKnown(s) && Rests(s, t, place) && r.Create?
    ensures var u := Handle(s, env, r);
            if place.AwaitsCreation? && place.path == r.path then Rests(u, t, Answered(0)) && u.responses[t] == [1]
            else SamePlaces(s, u, t)
  {
    var v, u := UnlockCreation(s, r.path), Handle(s, env, r);
    EntriesPass(v, u.locations, t);
    if place.AwaitsCreation? && place.path == r.path {
      UnlockCreationOnlyWakes(s, r.path, t);
      SameThenRests(v, u, t, Answered(0));
    } else {
      UnlockCreationOfOthers(s, r.path, t, place);
      SamePlacesTransitive(s, v, u, t);
    }
  }

  /**
   * A thread that waits for data is answered by a write to the path or a
   * committing close of it that finds it releasable, and by no other request.
   */
  lemma DataWaiterExactly(s: State, env: Env, r: Request, t: Tid, p: Path)
    requires WaitersKnown(s) && Rests(s, t, AwaitsData(p)) && t != r.tid
    requires r.ExitGroup? && r.tid in s.produced ==> s.produced[r.tid] == []
    ensures var u := Handle(s, env, r);
            if LooksAt(s, env, r, p) && Releasable(WhenLooking(s, r), env, p, t) then
              Rests(u, t, Answered(0)) && u.responses[t] == [ReleaseValue(env.fs, p)]
            else SamePlaces(s, u, t)
  {
    var place := AwaitsData(p);
    if r.Blocking() { BlockingPasses(s, env, r, t); }
    else {
      match r
      case Close(tid, path) => CloseForData(s, env, tid, path, t, p);
      case Create(tid, _, path) => CreateForWaiter(s, env, r, t, place);
      case ExitGroup(tid) => RemovePasses(s, tid, t);
      case HandshakeNamed(tid, _, app) => RegisterPasses(s, tid, app, t);
      case HandshakeAnonymous(tid, _) => RegisterPasses(s, tid, DEFAULT_APP_NAME, t);
      case Rename(_, _, newPath) => UnlockCreationOfOthers(s, newPath, t, place);
      case Write(_, _, path, _) => UnlockDataForData(s, env, path, t, p);
    }
  }
}
