/**
 * When a deferred request for data is released with enough data. The check
 * compares the thread id with the size of the file and not with the size
 * waited for, so this depends on the fire rule and on the size asked for.
 */
module DeferredReads {
  import opened Types
  import opened CommitRules
  import opened ServerState
  import opened Places
  import opened WholeSystem

  /** The same files, but for the size of one regular file. */
  function WithSize(env: Env, p: Path, size: U64): Env {
    env.(fs := env.fs[p := Regular(size)])
  }

  /** Nothing but the fire rule could release a waiter: a regular file, not committed, not its own product. */
  ghost predicate UpToTheSize(s: State, env: Env, p: Path, t: Tid) {
    !IsDirectory(env.fs, p) && !Committed(WorldOf(s, env), p) && !IsProducer(s, env, p, t)
  }

  /** The size of a file plays no part in commitment. */
  lemma SizeDoesNotCommit(s: State, env: Env, p: Path, size: U64, q: Path)
    requires !IsDirectory(env.fs, p)
    ensures Committed(WorldOf(s, WithSize(env, p, size)), q) <==> Committed(WorldOf(s, env), q)
  {
    var w, v := WorldOf(s, env), WorldOf(s, WithSize(env, p, size));
    assert forall x :: !BecomesDirectory(w.fs, v.fs, x) && !BecomesDirectory(v.fs, w.fs, x);
    if Committed(w, q) { CommittedStays(w, v, q); }
    if Committed(v, q) { CommittedStays(v, w, q); }
  }

  /** What the check amounts to then. */
  lemma ReleasedExactly(s: State, env: Env, p: Path, t: Tid, size: U64)
    requires UpToTheSize(s, env, p, t)
    ensures Releasable(s, WithSize(env, p, size), p, t)
       <==> FireRuleOf(s.locations, p) == NoUpdate && TidAsU64(t) >= size
  {
    SizeDoesNotCommit(s, env, p, size, p);
    assert IsProducer(s, WithSize(env, p, size), p, t) <==> IsProducer(s, env, p, t);
  }

  ghost predicate EnoughIfReleased(s: State, env: Env, p: Path, t: Tid, awaited: U64, size: U64) {
    Releasable(s, WithSize(env, p, size), p, t) ==> size >= awaited
  }

  ghost predicate ReleasedIfEnough(s: State, env: Env, p: Path, t: Tid, awaited: U64, size: U64) {
    size >= awaited ==> Releasable(s, WithSize(env, p, size), p, t)
  }

  /** A waiter is released too early for no size, exactly under the rule update or if it asks for nothing. */
  lemma NeverTooEarlyExactly(s: State, env: Env, p: Path, t: Tid, awaited: U64)
    requires UpToTheSize(s, env, p, t)
    ensures (forall size: U64 :: EnoughIfReleased(s, env, p, t, awaited, size))
       <==> FireRuleOf(s.locations, p) == Update || awaited == 0
  {
    forall size: U64
      ensures EnoughIfReleased(s, env, p, t, awaited, size)
         <==> !(FireRuleOf(s.locations, p) == NoUpdate && TidAsU64(t) >= size) || size >= awaited
    {
      ReleasedExactly(s, env, p, t, size);
    }
    assert EnoughIfReleased(s, env, p, t, awaited, 0) <==> FireRuleOf(s.locations, p) == Update || awaited == 0;
  }

  /** It is held back too long for no size, exactly under no_update if its id converts to the greatest number. */
  lemma NeverTooLateExactly(s: State, env: Env, p: Path, t: Tid, awaited: U64)
    requires UpToTheSize(s, env, p, t)
    ensures (forall size: U64 :: ReleasedIfEnough(s, env, p, t, awaited, size))
       <==> FireRuleOf(s.locations, p) == NoUpdate && t == -1
  {
    forall size: U64
      ensures ReleasedIfEnough(s, env, p, t, awaited, size)
         <==> size < awaited || (FireRuleOf(s.locations, p) == NoUpdate && TidAsU64(t) >= size)
    {
      ReleasedExactly(s, env, p, t, size);
    }
    assert ReleasedIfEnough(s, env, p, t, awaited, ULLONG_MAX) ==> FireRuleOf(s.locations, p) == NoUpdate && t == -1;
  }

  /** A thread that waits for n bytes of an empty file with rule no_update is answered with 0. */
  lemma EmptyFileIsReleased(rules: Rules, p: Path, t: Tid, n: U64)
    requires n > 0
    ensures var entry := Entry([], OnTermination, NoUpdate, true, -1, -1, []);
            var s := State(map[t := []], map[t := DEFAULT_APP_NAME], map[t := []], map[],
                           map[p := map[t := n]], map[p := entry], map[]);
            var u := UnlockData(s, Env(rules, map[p := Regular(0)], [p]), p);
            u.responses[t] == [0] && p !in u.awaitingData
  {
    var entry := Entry([], OnTermination, NoUpdate, true, -1, -1, []);
    var s := State(map[t := []], map[t := DEFAULT_APP_NAME], map[t := []], map[],
                   map[p := map[t := n]], map[p := entry], map[]);
    var env := Env(rules, map[p := Regular(0)], [p]);
    assert Releasable(s, env, p, t);
    assert Released(s, env, p) == {t};
    assert s.awaitingData[p] - {t} == map[];
  }

  // ---- Over runs of the whole system ----

  /** The step makes the server look at those who wait for data of the path. */
  predicate LooksIn(sys: System, a: Action, p: Path)
    requires Enabled(sys, a)
  {
    || (a.Serve? && LooksAt(sys.server, a.env, sys.log[sys.head], p))
    || (a.PollData? && a.path == p)
  }

  function WhenLookingIn(sys: System, a: Action): State
    requires Enabled(sys, a)
  {
    if a.Serve? then WhenLooking(sys.server, sys.log[sys.head]) else sys.server
  }

  /** The same step when the file has this size. */
  function AtSize(a: Action, p: Path, size: U64): Action
    requires a.Serve? || a.PollData?
  {
    a.(env := WithSize(a.env, p, size))
  }

  /** If the step answers the waiter, it tells it at least the size it waits for. */
  ghost predicate TellsEnough(sys: System, a: Action, p: Path, t: Tid, awaited: U64, size: U64)
    requires (a.Serve? || a.PollData?) && Enabled(sys, a)
  {
    var u := Do(sys, AtSize(a, p, size)).server;
    At(u, t, Answered(0)) ==> u.responses[t][0] >= awaited
  }

  lemma TellsEnoughExactly(sys: System, a: Action, t: Tid, p: Path, size: U64)
    requires Reachable(sys) && Enabled(sys, a) && Rests(sys.server, t, AwaitsData(p)) && LooksIn(sys, a, p)
    requires UpToTheSize(WhenLookingIn(sys, a), a.env, p, t)
    ensures TellsEnough(sys, a, p, t, sys.server.awaitingData[p][t], size)
       <==> EnoughIfReleased(WhenLookingIn(sys, a), a.env, p, t, sys.server.awaitingData[p][t], size)
  {
    var b := AtSize(a, p, size);
    assert LooksIn(sys, b, p);
    DataWaitersAnsweredExactly(sys, b, t, p);
    assert !At(sys.server, t, Answered(0));
  }

  /**
   * In every reachable state, whatever the size of the file when the server
   * next looks at it: a deferred read is told at least the end it asked for,
   * exactly if the fire rule is update or it asked for nothing.
   */
  lemma DeferredReadsGetEnoughExactly(sys: System, a: Action, t: Tid, p: Path)
    requires Reachable(sys) && Enabled(sys, a) && Rests(sys.server, t, AwaitsData(p)) && LooksIn(sys, a, p)
    requires UpToTheSize(WhenLookingIn(sys, a), a.env, p, t)
    ensures var awaited := sys.server.awaitingData[p][t];
            (forall size: U64 :: TellsEnough(sys, a, p, t, awaited, size)) <==>
              FireRuleOf(sys.server.locations, p) == Update || awaited == 0
  {
    var awaited := sys.server.awaitingData[p][t];
    var s := WhenLookingIn(sys, a);
    NeverTooEarlyExactly(s, a.env, p, t, awaited);
    forall size: U64
      ensures TellsEnough(sys, a, p, t, awaited, size) <==> EnoughIfReleased(s, a.env, p, t, awaited, size)
    {
      TellsEnoughExactly(sys, a, t, p, size);
    }
  }

  /** The size waited for is the end the read asked for. */
  lemma AwaitedIsTheEnd(sys: System, t: Tid, p: Path)
    requires Reachable(sys) && Rests(sys.server, t, AwaitsData(p))
    ensures Handled(sys, t) && sys.clients[t].at < |sys.log|
    ensures var r := sys.log[sys.clients[t].at];
            && r.tid == t && (r.Read? || r.Consent?) && r.path == p
            && sys.server.awaitingData[p][t] == if r.Read? then r.end else 0
  {
    ReachableIsInv(sys);
    PlacedIsHandled(sys, t, AwaitsData(p));
    assert ClientOk(sys, t);
  }

  /** An answer given later says "committed" to the cache only for a directory or a file of the greatest size. */
  lemma DeferredAnswerSaysCommittedExactly(s: State, env: Env, p: Path, t: Tid, end: U64)
    requires env.rules.handled(p) && Committed(WorldOf(s, env), p)
    ensures ReadAnswer(s, env, t, p, end) == Some(ReleaseValue(env.fs, p))
       <==> IsDirectory(env.fs, p) || FileSize(env.fs, p) == ULLONG_MAX
  {
  }

  /** A committed file of 5 bytes: an answer given at once says that it is committed, a later one says 5. */
  lemma DeferredAnswerHidesCommitment(rules: Rules, p: Path, t: Tid)
    requires rules.handled(p)
    ensures var s := State(map[], map[], map[], map[], map[], map[], map[p := 0]);
            var env := Env(rules, map[p := Regular(5)], []);
            && Committed(WorldOf(s, env), p)
            && ReadAnswer(s, env, t, p, 9) == Some(ULLONG_MAX) && ReleaseValue(env.fs, p) == 5
  {
    var s := State(map[], map[], map[], map[], map[], map[], map[p := 0]);
    LeafCommitted(WorldOf(s, Env(rules, map[p := Regular(5)], [])), p);
  }
}
