/**
 * The server and its clients together: threads are cloned, send requests into
 * one queue, block on those that are answered, and exit; the server handles
 * the queue in order, and the monitor polls in between.
 */
module WholeSystem {
  import opened Types
  import opened Requests
  import opened CommitRules
  import opened ServerState
  import opened ServerFacts
  import opened Places
  import Monitor
  import ServerRuns

  /** `at` is the position, among all requests ever queued, of the one the thread waits on. */
  datatype Client = Cloned | Announced | Running | Blocked(at: nat) | Exiting | Exited

  /** `log` is every request ever queued, in order; the server has taken the first `head` of them. */
  datatype System = System(server: State, log: seq<Request>, head: nat, tids: set<Tid>, clients: map<Tid, Client>)

  datatype Action =
    | Clone(tid: Tid)
    | Announce(handshake: Request)
    | Enroll(tid: Tid)
    | Wake(tid: Tid)
    | Send(request: Request)
    | Receive(tid: Tid)
    | Leave(tid: Tid)
    | Serve(env: Env)
    | PollCreation(env: Env, path: Path)
    | PollData(env: Env, path: Path)

  predicate Status(sys: System, t: Tid, c: Client) {
    t in sys.clients && sys.clients[t] == c
  }

  predicate IsBlocked(sys: System, t: Tid) {
    t in sys.clients && sys.clients[t].Blocked?
  }

  /**
   * The parent queues the handshake of the child before it enrolls its thread
   * id; the child goes on as soon as the id is enrolled.
   */
  predicate Enabled(sys: System, a: Action) {
    match a
    case Clone(t) => t !in sys.clients || sys.clients[t].Exited?
    case Announce(r) => r.Handshake() && Status(sys, r.tid, Cloned)
    case Enroll(t) => Status(sys, t, Announced)
    case Wake(t) => (Status(sys, t, Cloned) || Status(sys, t, Announced)) && t in sys.tids
    case Send(r) => Status(sys, r.tid, Running) && !r.Handshake() && (r.ExitGroup? ==> r.tid in sys.tids)
    case Receive(t) => IsBlocked(sys, t) && t in sys.server.responses && sys.server.responses[t] != []
    case Leave(t) => Status(sys, t, Exiting)
    case Serve(_) => sys.head < |sys.log|
    case PollCreation(_, _) => true
    case PollData(_, _) => true
  }

  /** What the sender of a request is doing after it. */
  function AfterSending(r: Request, at: nat): Client {
    if r.Blocking() then Blocked(at) else if r.ExitGroup? then Exiting else Running
  }

  ghost function Do(sys: System, a: Action): System
    requires Enabled(sys, a)
  {
    match a
    case Clone(t) => sys.(clients := sys.clients[t := Cloned])
    case Announce(r) => sys.(log := sys.log + [r], clients := sys.clients[r.tid := Announced])
    case Enroll(t) => sys.(tids := sys.tids + {t})
    case Wake(t) => sys.(clients := sys.clients[t := Running])
    case Send(r) => sys.(log := sys.log + [r], clients := sys.clients[r.tid := AfterSending(r, |sys.log|)])
    case Receive(t) =>
      var responses := sys.server.responses;
      sys.(server := sys.server.(responses := responses[t := responses[t][1..]]), clients := sys.clients[t := Running])
    case Leave(t) => sys.(tids := sys.tids - {t}, clients := sys.clients[t := Exited])
    case Serve(env) => sys.(server := Handle(sys.server, env, sys.log[sys.head]), head := sys.head + 1)
    case PollCreation(env, path) => sys.(server := MonitorCreation(sys.server, env, path))
    case PollData(env, path) => sys.(server := MonitorData(sys.server, env, path))
  }

  /** Any configuration, no client, nothing queued. */
  predicate Init(sys: System) {
    && sys.server.responses == map[] && sys.server.appNames == map[] && sys.server.produced == map[]
    && sys.server.awaitingCreation == map[] && sys.server.awaitingData == map[]
    && sys.log == [] && sys.head == 0 && sys.tids == {} && sys.clients == map[]
  }

  ghost predicate Legal(sys: System, run: seq<Action>)
    decreases |run|
  {
    run == [] || (Enabled(sys, run[0]) && Legal(Do(sys, run[0]), run[1..]))
  }

  ghost function After(sys: System, run: seq<Action>): System
    requires Legal(sys, run)
    decreases |run|
  {
    if run == [] then sys else After(Do(sys, run[0]), run[1..])
  }

  // ---- Who is registered once a number of requests is handled ----

  function Registered(log: seq<Request>): set<Tid> {
    if log == [] then {}
    else
      KeysAfter(Registered(log[..|log| - 1]), log[|log| - 1])
  }

  /** The j-th request is the handshake of the thread, and no exit of it follows. */
  predicate Introduces(log: seq<Request>, t: Tid, j: int) {
    && 0 <= j < |log| && log[j].Handshake() && log[j].tid == t
    && forall k | j < k < |log| :: !(log[k].ExitGroup? && log[k].tid == t)
  }

  lemma IntroducesOneMore(log: seq<Request>, t: Tid, j: int)
    requires log != []
    ensures var front, r := log[..|log| - 1], log[|log| - 1];
            Introduces(log, t, j) <==>
              if j == |log| - 1 then r.Handshake() && r.tid == t
              else Introduces(front, t, j) && !(r.ExitGroup? && r.tid == t)
  {
    var front := log[..|log| - 1];
    assert forall k | 0 <= k < |front| :: front[k] == log[k];
  }

  lemma {:induction false} RegisteredMeaning(log: seq<Request>, t: Tid)
    ensures t in Registered(log) <==> exists j :: Introduces(log, t, j)
  {
    if log != [] {
      var front := log[..|log| - 1];
      RegisteredMeaning(front, t);
      IntroducesOneMore(log, t, |log| - 1);
      forall j ensures Introduces(log, t, j) ==> j == |log| - 1 || Introduces(front, t, j) {
        IntroducesOneMore(log, t, j);
      }
      if j :| Introduces(front, t, j) { IntroducesOneMore(log, t, j); }
    }
  }

  /** Requests of others do not matter. */
  lemma {:induction false} RegisteredSteady(log: seq<Request>, lo: nat, t: Tid)
    requires lo <= |log| && forall j | lo <= j < |log| :: log[j].tid != t
    ensures t in Registered(log) <==> t in Registered(log[..lo])
    decreases |log|
  {
    if lo == |log| {
      assert log[..lo] == log;
    } else {
      var front := log[..|log| - 1];
      assert front[..lo] == log[..lo];
      RegisteredSteady(front, lo, t);
    }
  }

  // ---- The invariant ----

  /** The server's tables list exactly the threads registered by the requests taken so far. */
  ghost predicate Tables(sys: System) {
    && sys.head <= |sys.log|
    && sys.server.responses.Keys == Registered(sys.log[..sys.head])
    && sys.server.produced.Keys == Registered(sys.log[..sys.head])
    && sys.server.responses.Keys <= sys.server.appNames.Keys
  }

  /** Every request but a handshake is sent by a thread registered before it. */
  ghost predicate Introduced(log: seq<Request>) {
    forall i | 0 <= i < |log| :: !log[i].Handshake() ==> log[i].tid in Registered(log[..i])
  }

  predicate Active(c: Client) {
    c.Announced? || c.Running? || c.Blocked?
  }

  ghost predicate Waiting(log: seq<Request>, t: Tid, at: nat) {
    at < |log| && log[at].tid == t && log[at].Blocking() && forall j | at < j < |log| :: log[j].tid != t
  }

  ghost predicate ClientOk(sys: System, t: Tid) {
    && (t in sys.tids ==> t in sys.clients)
    && (t in sys.clients ==>
          var c := sys.clients[t];
          && (Active(c) ==> t in Registered(sys.log))
          && (c.Cloned? || c.Exited? ==> t !in sys.tids)
          && (c.Running? || c.Blocked? || c.Exiting? ==> t in sys.tids)
          && (c.Blocked? ==> Waiting(sys.log, t, c.at)))
  }

  ghost predicate Handled(sys: System, t: Tid) {
    IsBlocked(sys, t) && sys.clients[t].at < sys.head
  }

  /** A handled request is in one suitable place; any other thread is nowhere. */
  ghost predicate Placed(sys: System, t: Tid) {
    if Handled(sys, t) then sys.clients[t].at < |sys.log| && Served(sys.server, sys.log[sys.clients[t].at])
    else Nowhere(sys.server, t)
  }

  /** Who sent a blocking request that is still queued waits on it. */
  ghost predicate Pending(sys: System, i: nat) {
    sys.head <= i < |sys.log| && sys.log[i].Blocking() ==> Status(sys, sys.log[i].tid, Blocked(i))
  }

  ghost predicate Inv(sys: System) {
    && Tables(sys) && Introduced(sys.log)
    && (forall i: nat :: Pending(sys, i))
    && (forall t :: ClientOk(sys, t))
    && (forall t :: Placed(sys, t))
    && Monitor.NoEmptyWaiters(sys.server) && ServerRuns.NothingProduced(sys.server)
  }

  // ---- What follows from it ----

  lemma HandledIsKnown(sys: System, t: Tid)
    requires Tables(sys) && ClientOk(sys, t) && Handled(sys, t)
    ensures Known(sys.server, t)
  {
    RegisteredSteady(sys.log, sys.head, t);
  }

  lemma PlacedIsHandled(sys: System, t: Tid, place: Place)
    requires Inv(sys) && At(sys.server, t, place)
    ensures Handled(sys, t) && Rests(sys.server, t, place) && Suits(sys.server, sys.log[sys.clients[t].at], place)
  {
    assert Placed(sys, t) && ClientOk(sys, t);
  }

  /** Every waiter has a response queue and a name. */
  lemma WaitersAreKnown(sys: System)
    requires Inv(sys)
    ensures WaitersKnown(sys.server)
  {
    var s := sys.server;
    forall p, i | p in s.awaitingCreation && 0 <= i < |s.awaitingCreation[p]|
      ensures s.awaitingCreation[p][i] in s.responses
    {
      var t := s.awaitingCreation[p][i];
      PlacedIsHandled(sys, t, AwaitsCreation(p, i));
      HandledIsKnown(sys, t);
    }
    forall p, t | p in s.awaitingData && t in s.awaitingData[p] ensures t in s.responses && t in s.appNames {
      PlacedIsHandled(sys, t, AwaitsData(p));
      HandledIsKnown(sys, t);
    }
  }

  lemma SenderIsKnown(sys: System)
    requires Inv(sys) && sys.head < |sys.log| && !sys.log[sys.head].Handshake()
    ensures Known(sys.server, sys.log[sys.head].tid)
  {
  }

  lemma EveryoneSettled(sys: System, t: Tid)
    requires Inv(sys)
    ensures Settled(sys.server, t)
  {
    assert Placed(sys, t) && ClientOk(sys, t);
  }

  // ---- What a request does to the tables ----

  function KeysAfter(keys: set<Tid>, r: Request): set<Tid> {
    if r.Handshake() then keys + {r.tid} else if r.ExitGroup? then keys - {r.tid} else keys
  }

  ghost predicate TablesAfter(s: State, r: Request, u: State) {
    && u.responses.Keys == KeysAfter(s.responses.Keys, r)
    && u.produced.Keys == KeysAfter(s.produced.Keys, r)
    && u.appNames.Keys == (if r.Handshake() then s.appNames.Keys + {r.tid} else s.appNames.Keys)
    && (Monitor.NoEmptyWaiters(s) ==> Monitor.NoEmptyWaiters(u))
  }

  ghost predicate SameTables(s: State, u: State) {
    && u.responses.Keys == s.responses.Keys && u.produced.Keys == s.produced.Keys && u.appNames.Keys == s.appNames.Keys
    && (Monitor.NoEmptyWaiters(s) ==> Monitor.NoEmptyWaiters(u))
  }

  lemma UnlockTables(s: State, env: Env, path: Path)
    ensures SameTables(s, UnlockCreation(s, path)) && SameTables(s, UnlockData(s, env, path))
  {
    UnlockCreationAnswers(s, path);
    UnlockDataAnswers(s, env, path);
  }

  lemma SetCommittedTables(s: State, env: Env, path: Path)
    ensures SameTables(s, SetCommitted(s, env, path))
  {
    var s1 := CreateToken(s, path);
    UnlockTables(s1, env, path);
    UnlockTables(UnlockData(s1, env, path), env, path);
  }

  lemma {:induction false} SetAllCommittedTables(s: State, env: Env, paths: seq<Path>)
    ensures SameTables(s, SetAllCommitted(s, env, paths))
  {
    if paths != [] {
      SetAllCommittedTables(s, env, paths[..|paths| - 1]);
      SetCommittedTables(SetAllCommitted(s, env, paths[..|paths| - 1]), env, paths[|paths| - 1]);
    }
  }

  lemma ReplyTables(s: State, tid: Tid, v: U64)
    ensures SameTables(s, s.(responses := Reply(s.responses, tid, v)))
  {
  }

  lemma WaitTables(s: State, path: Path, tid: Tid, size: U64)
    ensures SameTables(s, AddAwaitingData(s, path, tid, size))
  {
  }

  lemma BlockingTables(s: State, env: Env, r: Request)
    requires r.Blocking()
    ensures SameTables(s, Handle(s, env, r))
  {
    match r
    case Consent(tid, path, _) =>
      if ConsentNow(s, env, tid, path) { ReplyTables(s, tid, 1); } else { WaitTables(s, path, tid, 0); }
    case Open(tid, _, path) => ReplyTables(s, tid, 1);
    case Read(path, tid, _, end) =>
      match ReadAnswer(s, env, tid, path, end)
      case Some(v) => ReplyTables(s, tid, v);
      case None => WaitTables(s, path, tid, end);
  }

  lemma RegisterTables(s: State, r: Request, app: string)
    requires r.Handshake()
    ensures TablesAfter(s, r, Register(s, r.tid, app))
  {
  }

  lemma ExitTables(s: State, env: Env, r: Request)
    requires r.ExitGroup?
    ensures TablesAfter(s, r, HandleExit(s, env, r.tid))
  {
    SetAllCommittedTables(s, env, if r.tid in s.produced then s.produced[r.tid] else []);
  }

  lemma OtherTables(s: State, env: Env, r: Request)
    requires r.Close? || r.Create? || r.Rename? || r.Write?
    ensures SameTables(s, Handle(s, env, r))
  {
    match r
    case Close(tid, path) => SetCommittedTables(s, env, path);
    case Create(tid, _, path) => UnlockTables(s, env, path);
    case Rename(_, _, newPath) => UnlockTables(s, env, newPath);
    case Write(_, _, path, _) => UnlockTables(s, env, path);
  }

  lemma HandleTables(s: State, env: Env, r: Request)
    ensures TablesAfter(s, r, Handle(s, env, r))
  {
    if r.Blocking() { BlockingTables(s, env, r); }
    else if r.HandshakeNamed? { RegisterTables(s, r, r.app); }
    else if r.HandshakeAnonymous? { RegisterTables(s, r, DEFAULT_APP_NAME); }
    else if r.ExitGroup? { ExitTables(s, env, r); }
    else { OtherTables(s, env, r); }
  }

  // ---- Every step keeps the invariant ----

  lemma AppendKeeps(sys: System, r: Request, t: Tid)
    requires Tables(sys)
    ensures (sys.log + [r])[..sys.head] == sys.log[..sys.head]
    ensures t in Registered(sys.log + [r]) <==>
              if t == r.tid && (r.Handshake() || r.ExitGroup?) then r.Handshake() else t in Registered(sys.log)
  {
    assert (sys.log + [r])[..|sys.log|] == sys.log;
  }

  lemma AppendIntroduced(log: seq<Request>, r: Request)
    requires Introduced(log) && (r.Handshake() || r.tid in Registered(log))
    ensures Introduced(log + [r])
  {
    forall i | 0 <= i < |log + [r]| && !(log + [r])[i].Handshake()
      ensures (log + [r])[i].tid in Registered((log + [r])[..i])
    {
      assert (log + [r])[..i] == log[..i];
      if i == |log| { assert log[..i] == log; }
    }
  }

  /** The others do not notice. */
  lemma OthersKeep(sys: System, r: Request, c: Client, t: Tid)
    requires Tables(sys) && ClientOk(sys, t) && Placed(sys, t) && t != r.tid
    ensures var next := sys.(log := sys.log + [r], clients := sys.clients[r.tid := c]);
            ClientOk(next, t) && Placed(next, t)
  {
    AppendKeeps(sys, r, t);
  }

  /** A step of the clients that leaves the server and the queue alone, but for one client. */
  lemma ClientStepKeeps(sys: System, a: Action)
    requires Inv(sys) && Enabled(sys, a) && (a.Clone? || a.Enroll? || a.Wake? || a.Leave?)
    ensures Inv(Do(sys, a))
  {
    var next := Do(sys, a);
    forall t ensures ClientOk(next, t) && Placed(next, t) {
      assert ClientOk(sys, t) && Placed(sys, t);
      assert ClientOk(sys, a.tid) && Placed(sys, a.tid);
    }
    forall i: nat ensures Pending(next, i) { assert Pending(sys, i); }
  }

  lemma AnnounceSender(sys: System, r: Request)
    requires Inv(sys) && Enabled(sys, Announce(r))
    ensures var next := Do(sys, Announce(r)); ClientOk(next, r.tid) && Placed(next, r.tid)
  {
    AppendKeeps(sys, r, r.tid);
    assert ClientOk(sys, r.tid) && Placed(sys, r.tid);
  }

  lemma AnnounceKeeps(sys: System, r: Request)
    requires Inv(sys) && Enabled(sys, Announce(r))
    ensures Inv(Do(sys, Announce(r)))
  {
    var next := Do(sys, Announce(r));
    assert ClientOk(sys, r.tid);
    AppendKeeps(sys, r, r.tid);
    AppendIntroduced(sys.log, r);
    forall t ensures ClientOk(next, t) && Placed(next, t) {
      if t == r.tid { AnnounceSender(sys, r); } else {
        assert ClientOk(sys, t) && Placed(sys, t);
        OthersKeep(sys, r, Announced, t);
      }
    }
    forall i: nat ensures Pending(next, i) { assert Pending(sys, i); }
  }

  lemma SendSender(sys: System, r: Request)
    requires Inv(sys) && Enabled(sys, Send(r))
    ensures var next := Do(sys, Send(r)); ClientOk(next, r.tid) && Placed(next, r.tid)
  {
    AppendKeeps(sys, r, r.tid);
    assert ClientOk(sys, r.tid) && Placed(sys, r.tid);
  }

  lemma SendPending(sys: System, r: Request, i: nat)
    requires Enabled(sys, Send(r)) && Pending(sys, i)
    ensures Pending(Do(sys, Send(r)), i)
  {
  }

  lemma SendOthers(sys: System, r: Request, t: Tid)
    requires Inv(sys) && Enabled(sys, Send(r)) && t != r.tid
    ensures ClientOk(Do(sys, Send(r)), t) && Placed(Do(sys, Send(r)), t)
  {
    assert ClientOk(sys, t) && Placed(sys, t);
    OthersKeep(sys, r, AfterSending(r, |sys.log|), t);
  }

  lemma SendKeeps(sys: System, r: Request)
    requires Inv(sys) && Enabled(sys, Send(r))
    ensures Inv(Do(sys, Send(r)))
  {
    var next := Do(sys, Send(r));
    assert ClientOk(sys, r.tid);
    AppendKeeps(sys, r, r.tid);
    AppendIntroduced(sys.log, r);
    forall t ensures ClientOk(next, t) && Placed(next, t) {
      if t == r.tid { SendSender(sys, r); } else { SendOthers(sys, r, t); }
    }
    forall i: nat ensures Pending(next, i) { SendPending(sys, r, i); }
  }

  /** The one answer is taken. */
  lemma ReceiveKeeps(sys: System, t: Tid)
    requires Inv(sys) && Enabled(sys, Receive(t))
    ensures Inv(Do(sys, Receive(t)))
  {
    var s, u := sys.server, Do(sys, Receive(t)).server;
    PlacedIsHandled(sys, t, Answered(0)) by { assert At(s, t, Answered(0)); }
    assert At(s, t, Answered(1)) <==> |s.responses[t]| > 1;
    assert u.responses[t] == [];
    forall x ensures ClientOk(Do(sys, Receive(t)), x) && Placed(Do(sys, Receive(t)), x) {
      assert ClientOk(sys, x) && Placed(sys, x);
      if x == t {
        forall q ensures !At(u, t, q) {
          assert At(u, t, q) ==> At(s, t, q);
        }
      } else {
        SamePlacesPlaced(sys, Do(sys, Receive(t)), x);
      }
    }
    forall i: nat ensures Pending(Do(sys, Receive(t)), i) { assert Pending(sys, i); }
  }

  lemma SuitsAfterwards(s: State, u: State, r: Request, place: Place)
    requires SamePlaces(s, u, r.tid) && Rests(s, r.tid, place) && Suits(s, r, place)
    ensures Rests(u, r.tid, place) && Suits(u, r, place)
  {
    SameThenRests(s, u, r.tid, place);
    if place.AwaitsData? { assert At(s, r.tid, AwaitsData(place.path)) && At(u, r.tid, AwaitsData(place.path)); }
  }

  lemma SamePlacesPlaced(sys: System, next: System, t: Tid)
    requires Placed(sys, t) && ClientOk(sys, t) && SamePlaces(sys.server, next.server, t)
    requires next.log == sys.log && next.clients.Keys == sys.clients.Keys
    requires t in sys.clients ==> next.clients[t] == sys.clients[t]
    requires Handled(next, t) <==> Handled(sys, t)
    ensures Placed(next, t)
  {
    if Handled(sys, t) {
      var r := sys.log[sys.clients[t].at];
      var place :| Rests(sys.server, t, place) && Suits(sys.server, r, place);
      SuitsAfterwards(sys.server, next.server, r, place);
    }
  }

  lemma WokenPlaced(sys: System, env: Env, next: System, t: Tid)
    requires Placed(sys, t) && ClientOk(sys, t) && Wakes(sys.server, env, next.server, t)
    requires next.log == sys.log && next.clients == sys.clients && (Handled(next, t) <==> Handled(sys, t))
    ensures Placed(next, t)
  {
    if SamePlaces(sys.server, next.server, t) {
      SamePlacesPlaced(sys, next, t);
    } else if Handled(sys, t) {
      var r := sys.log[sys.clients[t].at];
      assert Rests(next.server, t, Answered(0)) && Suits(next.server, r, Answered(0));
    }
  }

  lemma ServePlaced(sys: System, env: Env, t: Tid)
    requires Inv(sys) && Enabled(sys, Serve(env))
    ensures Placed(Do(sys, Serve(env)), t)
  {
    var next, r := Do(sys, Serve(env)), sys.log[sys.head];
    assert ClientOk(sys, t) && Placed(sys, t);
    assert Pending(sys, sys.head);
    if r.Blocking() && t == r.tid {
      SenderIsKnown(sys);
      BlockingServes(sys.server, env, r);
    } else {
      WaitersAreKnown(sys);
      EveryoneSettled(sys, t);
      HandleWakes(sys.server, env, r, t);
      WokenPlaced(sys, env, next, t);
    }
  }

  lemma ServeTables(sys: System, env: Env)
    requires Tables(sys) && Monitor.NoEmptyWaiters(sys.server) && Enabled(sys, Serve(env))
    ensures var next := Do(sys, Serve(env)); Tables(next) && Monitor.NoEmptyWaiters(next.server)
  {
    HandleTables(sys.server, env, sys.log[sys.head]);
    assert sys.log[..sys.head + 1][..sys.head] == sys.log[..sys.head];
  }

  lemma ServeKeeps(sys: System, env: Env)
    requires Inv(sys) && Enabled(sys, Serve(env))
    ensures Inv(Do(sys, Serve(env)))
  {
    var next := Do(sys, Serve(env));
    ServeTables(sys, env);
    ServerRuns.ApplyCounts(sys.server, ServerRuns.Serve(env, sys.log[sys.head]), "");
    forall t ensures ClientOk(next, t) && Placed(next, t) {
      assert ClientOk(sys, t);
      ServePlaced(sys, env, t);
    }
    forall i: nat ensures Pending(next, i) { assert Pending(sys, i); }
  }

  lemma PollPlaced(sys: System, a: Action, t: Tid)
    requires Inv(sys) && (a.PollCreation? || a.PollData?)
    ensures Placed(Do(sys, a), t)
  {
    WaitersAreKnown(sys);
    assert ClientOk(sys, t) && Placed(sys, t);
    EveryoneSettled(sys, t);
    UnlockCreationWakes(sys.server, a.env, a.path, t);
    UnlockDataWakes(sys.server, a.env, a.path, t);
    assert SamePlaces(sys.server, sys.server, t);
    WokenPlaced(sys, a.env, Do(sys, a), t);
  }

  lemma PollKeeps(sys: System, a: Action)
    requires Inv(sys) && (a.PollCreation? || a.PollData?)
    ensures Inv(Do(sys, a))
  {
    var next := Do(sys, a);
    UnlockTables(sys.server, a.env, a.path);
    ServerRuns.UnlockEffect(sys.server, a.env, a.path);
    forall t ensures ClientOk(next, t) && Placed(next, t) {
      assert ClientOk(sys, t);
      PollPlaced(sys, a, t);
    }
    forall i: nat ensures Pending(next, i) { assert Pending(sys, i); }
  }

  lemma StepKeeps(sys: System, a: Action)
    requires Inv(sys) && Enabled(sys, a)
    ensures Inv(Do(sys, a))
  {
    match a
    case Announce(r) => AnnounceKeeps(sys, r);
    case Send(r) => SendKeeps(sys, r);
    case Receive(t) => ReceiveKeeps(sys, t);
    case Serve(env) => ServeKeeps(sys, env);
    case PollCreation(_, _) => PollKeeps(sys, a);
    case PollData(_, _) => PollKeeps(sys, a);
    case _ => ClientStepKeeps(sys, a);
  }

  lemma {:induction false} ReachableInv(sys: System, run: seq<Action>)
    requires Inv(sys) && Legal(sys, run)
    ensures Inv(After(sys, run))
    decreases |run|
  {
    if run != [] {
      StepKeeps(sys, run[0]);
      ReachableInv(Do(sys, run[0]), run[1..]);
    }
  }

  lemma InitInv(sys: System)
    requires Init(sys)
    ensures Inv(sys)
  {
    forall t ensures Placed(sys, t) {
      assert forall q :: !At(sys.server, t, q);
    }
  }

  ghost predicate Reachable(sys: System) {
    exists first, run :: Init(first) && Legal(first, run) && After(first, run) == sys
  }

  lemma ReachableIsInv(sys: System)
    requires Reachable(sys)
    ensures Inv(sys)
  {
    var first, run :| Init(first) && Legal(first, run) && After(first, run) == sys;
    InitInv(first);
    ReachableInv(first, run);
  }

  // ---- What holds in every reachable state ----

  /**
   * A thread whose blocking request was handled waits in one fitting place, or
   * has its one answer; nobody else is anywhere.
   */
  lemma AnsweredOrWaitingOnce(sys: System, t: Tid)
    requires Reachable(sys)
    ensures if Handled(sys, t) then
              && sys.clients[t].at < |sys.log|
              && exists place :: Rests(sys.server, t, place) && Suits(sys.server, sys.log[sys.clients[t].at], place)
            else Nowhere(sys.server, t)
  {
    ReachableIsInv(sys);
    assert Placed(sys, t) && ClientOk(sys, t);
  }

  /** A response queue never holds two answers, so a reply never blocks the server. */
  lemma NeverTwoAnswers(sys: System, t: Tid)
    requires Reachable(sys) && t in sys.server.responses
    ensures |sys.server.responses[t]| <= 1
    ensures sys.server.responses[t] != [] ==> IsBlocked(sys, t) && sys.clients[t].at < sys.head
  {
    ReachableIsInv(sys);
    assert At(sys.server, t, Answered(0)) <==> |sys.server.responses[t]| > 0;
    assert At(sys.server, t, Answered(1)) <==> |sys.server.responses[t]| > 1;
    assert Placed(sys, t) && ClientOk(sys, t);
  }

  /** No lookup of the handlers fails: for waiters, and for the sender of the request to be handled. */
  lemma LookupsSucceed(sys: System)
    requires Reachable(sys)
    ensures WaitersKnown(sys.server)
    ensures sys.head < |sys.log| && LooksUpSender(sys.log[sys.head]) ==> Known(sys.server, sys.log[sys.head].tid)
  {
    ReachableIsInv(sys);
    WaitersAreKnown(sys);
    if sys.head < |sys.log| && LooksUpSender(sys.log[sys.head]) { SenderIsKnown(sys); }
  }

  /** A thread is registered exactly between the handling of its handshake and that of its exit. */
  lemma RegisteredUntilExit(sys: System, t: Tid)
    requires Reachable(sys)
    ensures sys.head <= |sys.log|
    ensures t in sys.server.responses <==> exists j :: Introduces(sys.log[..sys.head], t, j)
  {
    ReachableIsInv(sys);
    RegisteredMeaning(sys.log[..sys.head], t);
  }

  /** Every request of a thread is queued after its handshake, with no exit of that thread in between. */
  lemma HandshakeComesFirst(sys: System, i: nat)
    requires Reachable(sys) && i < |sys.log| && !sys.log[i].Handshake()
    ensures exists j :: Introduces(sys.log[..i], sys.log[i].tid, j)
  {
    ReachableIsInv(sys);
    RegisteredMeaning(sys.log[..i], sys.log[i].tid);
  }

  /** A child can go on only once its handshake is queued. */
  lemma ChildrenWaitForTheirHandshake(sys: System, t: Tid)
    requires Reachable(sys) && Enabled(sys, Wake(t))
    ensures Status(sys, t, Announced) && t in Registered(sys.log)
  {
    ReachableIsInv(sys);
    assert ClientOk(sys, t);
  }

  /** What the monitor's pass needs of the state it starts from. */
  lemma MonitorMayRun(sys: System)
    requires Reachable(sys)
    ensures Monitor.WaitsOnce(sys.server) && Monitor.NoEmptyWaiters(sys.server)
  {
    ReachableIsInv(sys);
    var s := sys.server;
    forall p, q, i, j | p in s.awaitingCreation && q in s.awaitingCreation
      && 0 <= i < |s.awaitingCreation[p]| && 0 <= j < |s.awaitingCreation[q]|
      && s.awaitingCreation[p][i] == s.awaitingCreation[q][j]
      ensures p == q && i == j
    {
      var t := s.awaitingCreation[p][i];
      PlacedIsHandled(sys, t, AwaitsCreation(p, i));
      assert At(s, t, AwaitsCreation(q, j));
    }
    forall p, q, t | p in s.awaitingData && q in s.awaitingData && t in s.awaitingData[p] && t in s.awaitingData[q]
      ensures p == q
    {
      PlacedIsHandled(sys, t, AwaitsData(p));
      assert At(s, t, AwaitsData(q));
    }
    forall p, q, i | p in s.awaitingCreation && q in s.awaitingData && 0 <= i < |s.awaitingCreation[p]|
      ensures s.awaitingCreation[p][i] !in s.awaitingData[q]
    {
      var t := s.awaitingCreation[p][i];
      PlacedIsHandled(sys, t, AwaitsCreation(p, i));
      assert At(s, t, AwaitsData(q)) <==> t in s.awaitingData[q];
    }
  }

  // ---- Why a thread is answered ----

  /** The step gives the thread, blocked on the k-th request, its answer. */
  ghost predicate AnswersIn(sys: System, a: Action, k: nat)
    requires Enabled(sys, a)
  {
    && k < |sys.log| && Status(sys, sys.log[k].tid, Blocked(k))
    && !At(sys.server, sys.log[k].tid, Answered(0)) && At(Do(sys, a).server, sys.log[k].tid, Answered(0))
  }

  /** Only the server and its monitor answer; a deferred request for data only when it may be released. */
  lemma AnswerHasReason(sys: System, a: Action, k: nat)
    requires Inv(sys) && Enabled(sys, a) && AnswersIn(sys, a, k) && (sys.log[k].Consent? || sys.log[k].Read?)
    ensures a.Serve? || a.PollCreation? || a.PollData?
    ensures k != sys.head || !a.Serve? ==> Releasable(Do(sys, a).server, a.env, sys.log[k].path, sys.log[k].tid)
  {
    var r := sys.log[k];
    var t := r.tid;
    assert Placed(sys, t) && ClientOk(sys, t) && Pending(sys, sys.head);
    if (a.Serve? && k != sys.head) || a.PollCreation? || a.PollData? {
      WaitersAreKnown(sys);
      EveryoneSettled(sys, t);
      ServerStepWakes(sys, a, t);
      var place :| Rests(sys.server, t, place) && !place.Answered?
        && (place.AwaitsData? ==> ToldTheSize(Do(sys, a).server, a.env, t, place.path));
      assert Handled(sys, t) && Suits(sys.server, r, place);
    }
  }

  lemma ServerStepWakes(sys: System, a: Action, t: Tid)
    requires Inv(sys) && Enabled(sys, a) && (a.Serve? || a.PollCreation? || a.PollData?)
    requires IsBlocked(sys, t) && (a.Serve? ==> sys.clients[t].at != sys.head)
    ensures Wakes(sys.server, a.env, Do(sys, a).server, t)
  {
    assert Placed(sys, t) && ClientOk(sys, t) && Pending(sys, sys.head);
    WaitersAreKnown(sys);
    EveryoneSettled(sys, t);
    if a.Serve? { HandleWakes(sys.server, a.env, sys.log[sys.head], t); }
    else {
      UnlockCreationWakes(sys.server, a.env, a.path, t);
      UnlockDataWakes(sys.server, a.env, a.path, t);
    }
  }

  /** A request handled now is answered now only if its sender may go on. */
  lemma AnswerAtOnce(sys: System, env: Env)
    requires Inv(sys) && Enabled(sys, Serve(env)) && AnswersIn(sys, Serve(env), sys.head)
    requires sys.log[sys.head].Consent? || sys.log[sys.head].Read?
    ensures var s, r := sys.server, sys.log[sys.head];
            && SameRules(s, Do(sys, Serve(env)).server)
            && (r.Consent? ==> ConsentNow(s, env, r.tid, r.path))
            && (r.Read? ==> ReadAnswer(s, env, r.tid, r.path, r.end).Some?)
  {
  }

  /**
   * For a handled path whose fire rule is not no_update when the answer is
   * given, a consent goes to a producer or is given when the path is committed.
   */
  lemma ConsentsAreJustified(sys: System, a: Action, k: nat)
    requires Reachable(sys) && Enabled(sys, a) && AnswersIn(sys, a, k) && sys.log[k].Consent?
    ensures a.Serve? || a.PollCreation? || a.PollData?
    ensures var u, p := Do(sys, a).server, sys.log[k].path;
            a.env.rules.handled(p) && FireRuleOf(u.locations, p) != NoUpdate ==>
              IsProducer(u, a.env, p, sys.log[k].tid) || Committed(WorldOf(u, a.env), p)
  {
    ReachableIsInv(sys);
    AnswerHasReason(sys, a, k);
    if a.Serve? && k == sys.head {
      AnswerAtOnce(sys, a.env);
      CommitmentSurvives(sys.server, a.env, Do(sys, a).server, sys.log[k].path);
    }
  }

  lemma CommitmentSurvives(s: State, env: Env, u: State, p: Path)
    requires SameRules(s, u)
    ensures Committed(WorldOf(s, env), p) ==> Committed(WorldOf(u, env), p)
  {
    if Committed(WorldOf(s, env), p) { CommittedStays(WorldOf(s, env), WorldOf(u, env), p); }
  }

  /** The same of a read, which may also be answered at once when the file is large enough. */
  lemma ReadsAreJustified(sys: System, a: Action, k: nat)
    requires Reachable(sys) && Enabled(sys, a) && AnswersIn(sys, a, k) && sys.log[k].Read?
    ensures a.Serve? || a.PollCreation? || a.PollData?
    ensures var u, r := Do(sys, a).server, sys.log[k];
            a.env.rules.handled(r.path) && FireRuleOf(u.locations, r.path) != NoUpdate ==>
              || IsProducer(u, a.env, r.path, r.tid) || Committed(WorldOf(u, a.env), r.path)
              || (a.Serve? && k == sys.head && FileSize(a.env.fs, r.path) >= r.end)
  {
    ReachableIsInv(sys);
    AnswerHasReason(sys, a, k);
    if a.Serve? && k == sys.head {
      AnswerAtOnce(sys, a.env);
      CommitmentSurvives(sys.server, a.env, Do(sys, a).server, sys.log[k].path);
    }
  }

  // ---- When a waiting thread is answered ----

  lemma WaiterDoesNotSend(sys: System, t: Tid, place: Place)
    requires Inv(sys) && At(sys.server, t, place)
    ensures sys.head < |sys.log| ==> sys.log[sys.head].tid != t
  {
    PlacedIsHandled(sys, t, place);
    assert ClientOk(sys, t);
  }

  /** What the clients do among themselves does not move a thread that waits. */
  lemma ClientStepPasses(sys: System, a: Action, t: Tid, place: Place)
    requires Inv(sys) && Enabled(sys, a) && !(a.Serve? || a.PollCreation? || a.PollData?)
    requires Rests(sys.server, t, place) && !place.Answered?
    ensures SamePlaces(sys.server, Do(sys, a).server, t)
  {
    assert !At(sys.server, t, Answered(0));
  }

  predicate AnnouncesIn(sys: System, a: Action, p: Path)
    requires Enabled(sys, a)
  {
    || (a.Serve? && Announces(sys.server, a.env, sys.log[sys.head], p))
    || (a.PollCreation? && a.path == p && p in a.env.fs)
  }

  /** The size a thread id is compared with, and that a released thread is told: a directory counts as the greatest. */
  function SizeTold(fs: FileSystem, p: Path): int {
    if p !in fs then 0 else if fs[p].Directory? then 0xFFFF_FFFF_FFFF_FFFF else fs[p].size
  }

  /**
   * The path is committed under whatever rule, or the thread produces it, or
   * the fire rule is no_update and the thread id, taken as an unsigned number,
   * is not below the size.
   */
  ghost predicate MayGoOn(s: State, env: Env, p: Path, t: Tid) {
    || Committed(WorldOf(s, env), p)
    || IsProducer(s, env, p, t)
    || (p in s.locations && s.locations[p].fire == NoUpdate
        && (if t < 0 then t + 0x1_0000_0000_0000_0000 else t) >= SizeTold(env.fs, p))
  }

  lemma MayGoOnExactly(s: State, env: Env, p: Path, t: Tid)
    ensures MayGoOn(s, env, p, t) <==> Releasable(s, env, p, t)
    ensures SizeTold(env.fs, p) == ReleaseValue(env.fs, p)
  {
  }

  ghost predicate ReleasesIn(sys: System, a: Action, p: Path, t: Tid)
    requires Enabled(sys, a)
  {
    || (a.Serve? && LooksAt(sys.server, a.env, sys.log[sys.head], p)
        && MayGoOn(WhenLooking(sys.server, sys.log[sys.head]), a.env, p, t))
    || (a.PollData? && a.path == p && p in a.env.fs && MayGoOn(sys.server, a.env, p, t))
  }

  /**
   * A thread that waits for a creation is answered by the next creation of the
   * path, rename to it, committing close of it, or poll that finds it, and by
   * nothing else; until then it keeps its position.
   */
  lemma CreationWaitersAnsweredExactly(sys: System, a: Action, t: Tid, p: Path, i: nat)
    requires Reachable(sys) && Enabled(sys, a) && Rests(sys.server, t, AwaitsCreation(p, i))
    ensures var u := Do(sys, a).server;
            if AnnouncesIn(sys, a, p) then Rests(u, t, Answered(0)) && u.responses[t] == [1]
            else SamePlaces(sys.server, u, t)
  {
    ReachableIsInv(sys);
    WaitersAreKnown(sys);
    WaiterDoesNotSend(sys, t, AwaitsCreation(p, i));
    match a
    case Serve(env) => CreationWaiterExactly(sys.server, env, sys.log[sys.head], t, p, i);
    case PollCreation(env, path) =>
      if path in env.fs {
        if path == p { UnlockCreationOnlyWakes(sys.server, p, t); }
        else { UnlockCreationOfOthers(sys.server, path, t, AwaitsCreation(p, i)); }
      }
    case PollData(env, path) => UnlockDataOfOthers(sys.server, env, path, t, AwaitsCreation(p, i));
    case _ => ClientStepPasses(sys, a, t, AwaitsCreation(p, i));
  }

  /**
   * A thread that waits for data is answered, with the size of the file, by
   * the next write to the path, committing close of it or poll of it that
   * finds it releasable, and by nothing else; until then it keeps its size.
   */
  lemma DataWaitersAnsweredExactly(sys: System, a: Action, t: Tid, p: Path)
    requires Reachable(sys) && Enabled(sys, a) && Rests(sys.server, t, AwaitsData(p))
    ensures var u := Do(sys, a).server;
            if ReleasesIn(sys, a, p, t) then
              Rests(u, t, Answered(0)) && u.responses[t] == [SizeTold(a.env.fs, p)]
            else SamePlaces(sys.server, u, t)
  {
    ReachableIsInv(sys);
    WaitersAreKnown(sys);
    WaiterDoesNotSend(sys, t, AwaitsData(p));
    match a
    case Serve(env) =>
      MayGoOnExactly(WhenLooking(sys.server, sys.log[sys.head]), env, p, t);
      DataWaiterExactly(sys.server, env, sys.log[sys.head], t, p);
    case PollCreation(env, path) => UnlockCreationOfOthers(sys.server, path, t, AwaitsData(p));
    case PollData(env, path) =>
      MayGoOnExactly(sys.server, env, p, t);
      UnlockDataForData(sys.server, env, path, t, p);
    case _ => ClientStepPasses(sys, a, t, AwaitsData(p));
  }

  /** A poll of an existing committed path leaves nobody waiting for its data, whatever its rules. */
  lemma CommittedPathsReleaseAll(sys: System, env: Env, t: Tid, p: Path)
    requires Reachable(sys) && Rests(sys.server, t, AwaitsData(p))
    requires p in env.fs && Committed(WorldOf(sys.server, env), p)
    ensures var u := Do(sys, PollData(env, p)).server;
            && Rests(u, t, Answered(0))
            && u.responses[t] == [if env.fs[p].Directory? then 0xFFFF_FFFF_FFFF_FFFF else env.fs[p].size]
  {
    DataWaitersAnsweredExactly(sys, PollData(env, p), t, p);
  }

  /** When a request that blocks is answered at once. */
  ghost predicate AtOnce(s: State, env: Env, r: Request) {
    match r
    case Open(tid, _, p) => p in env.fs || IsProducer(s, env, p, tid)
    case Consent(tid, p, _) =>
      || !env.rules.handled(p) || IsProducer(s, env, p, tid)
      || (p in env.fs
          && (Committed(WorldOf(s, env), p) || (p in s.locations && s.locations[p].fire == NoUpdate)))
    case Read(p, tid, _, end) =>
      || !env.rules.handled(p) || IsProducer(s, env, p, tid)
      || Committed(WorldOf(s, env), p) || (if p in env.fs then env.fs[p].size else 0) >= end
    case _ => false
  }

  /** And with what: 1, but for a read of a handled path the size, or the greatest number if it is committed. */
  ghost function ToldAtOnce(s: State, env: Env, r: Request): int {
    if !r.Read? || !env.rules.handled(r.path) then 1
    else if Committed(WorldOf(s, env), r.path) then 0xFFFF_FFFF_FFFF_FFFF
    else if r.path in env.fs then env.fs[r.path].size
    else 0
  }

  lemma RepliedAtOnce(s: State, tid: Tid, v: U64)
    requires Nowhere(s, tid) && tid in s.responses
    ensures var u := s.(responses := Reply(s.responses, tid, v)); At(u, tid, Answered(0)) && u.responses[tid] == [v]
  {
    assert !At(s, tid, Answered(0));
  }

  lemma ReadAtOnce(s: State, env: Env, r: Request)
    requires r.Read?
    ensures ReadAnswer(s, env, r.tid, r.path, r.end)
         == if AtOnce(s, env, r) then Some(ToldAtOnce(s, env, r)) else None
  {
  }

  lemma AtOnceIsHandled(s: State, env: Env, r: Request)
    requires r.Blocking() && Nowhere(s, r.tid) && r.tid in s.responses
    ensures var u := Handle(s, env, r);
            && (At(u, r.tid, Answered(0)) <==> AtOnce(s, env, r))
            && (AtOnce(s, env, r) ==> r.tid in u.responses && u.responses[r.tid] == [ToldAtOnce(s, env, r)])
  {
    assert !At(s, r.tid, Answered(0));
    if AtOnce(s, env, r) { RepliedAtOnce(s, r.tid, ToldAtOnce(s, env, r)); }
    if r.Read? { ReadAtOnce(s, env, r); }
  }

  /**
   * A request that blocks is answered in the step that handles it exactly when
   * its sender may go on, and with that number.
   */
  lemma AnsweredAtOnceExactly(sys: System, env: Env)
    requires Reachable(sys) && Enabled(sys, Serve(env)) && sys.log[sys.head].Blocking()
    ensures var s, u, r := sys.server, Do(sys, Serve(env)).server, sys.log[sys.head];
            && (At(u, r.tid, Answered(0)) <==> AtOnce(s, env, r))
            && (AtOnce(s, env, r) ==> r.tid in u.responses && u.responses[r.tid] == [ToldAtOnce(s, env, r)])
  {
    ReachableIsInv(sys);
    var r := sys.log[sys.head];
    SenderIsKnown(sys);
    assert ClientOk(sys, r.tid) && Placed(sys, r.tid) && Pending(sys, sys.head);
    AtOnceIsHandled(sys.server, env, r);
  }
}
