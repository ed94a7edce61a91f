/**
 * What the handlers and the monitor, as methods on the server's objects, ask
 * of the state they start from, in every state the whole system reaches.
 */
module Guarantees {
  import opened Types
  import opened CommitRules
  import opened ServerState
  import opened WholeSystem
  import opened Server
  import Monitor
  import ServerRuns

  lemma DoGrows(sys: System, a: Action)
    requires Enabled(sys, a)
    ensures LocationsGrow(sys.server.locations, Do(sys, a).server.locations)
    ensures TokensGrow(sys.server.tokens, Do(sys, a).server.tokens)
  {
    match a
    case Serve(env) => ServerRuns.ApplyGrows(sys.server, ServerRuns.Serve(env, sys.log[sys.head]));
    case PollCreation(env, path) => ServerRuns.ApplyGrows(sys.server, ServerRuns.PollCreation(env, path));
    case PollData(env, path) => ServerRuns.ApplyGrows(sys.server, ServerRuns.PollData(env, path));
    case _ =>
  }

  /** The dependencies of the configuration stay acyclic along every run of the system. */
  lemma {:induction false} AcyclicAlongRuns(sys: System, run: seq<Action>)
    requires Legal(sys, run) && Acyclic(sys.server.locations)
    ensures Acyclic(After(sys, run).server.locations)
    decreases |run|
  {
    if run != [] {
      DoGrows(sys, run[0]);
      GrowthKeepsAcyclic(sys.server.locations, Do(sys, run[0]).server.locations);
      AcyclicAlongRuns(Do(sys, run[0]), run[1..]);
    }
  }

  /** The object holds this state, and its parts are those of one server. */
  ghost predicate Holds(fm: CapioFileManager, s: State)
    reads fm, fm.clientManager, fm.engine
  {
    fm.Linked() && fm.State() == s
  }

  /**
   * From an acyclic configuration, after any run: the dispatcher may handle
   * the next request and the monitor may make a pass.
   */
  lemma HandlersMayRun(first: System, run: seq<Action>, fm: CapioFileManager, env: Env)
    requires Init(first) && Legal(first, run) && Acyclic(first.server.locations)
    requires Holds(fm, After(first, run).server) && Walks(env.order, fm.engine.locations)
    ensures Ready(fm, env) && Monitor.WaitsOnce(fm.State())
    ensures var sys := After(first, run);
            sys.head < |sys.log| && LooksUpSender(sys.log[sys.head]) ==> Known(fm.State(), sys.log[sys.head].tid)
  {
    var sys := After(first, run);
    assert Reachable(sys);
    LookupsSucceed(sys);
    MonitorMayRun(sys);
    AcyclicAlongRuns(first, run);
  }

  /** An exit commits nothing in any reachable state, though it is meant to commit what its thread produced. */
  lemma ExitsCommitNothing(sys: System, env: Env, p: Path)
    requires Reachable(sys) && Enabled(sys, WholeSystem.Serve(env)) && sys.log[sys.head].ExitGroup?
    ensures Committed(WorldOf(Do(sys, WholeSystem.Serve(env)).server, env), p)
       <==> Committed(WorldOf(sys.server, env), p)
  {
    ReachableIsInv(sys);
    ServerRuns.ExitCommitsNothing(sys.server, env, sys.log[sys.head].tid, p);
  }
}
