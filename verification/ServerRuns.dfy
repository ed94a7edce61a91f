/** What holds over whole runs of the server: requests of any kind, with the monitor in between. */
module ServerRuns {
  import opened Types
  import opened Requests
  import opened CommitRules
  import opened ServerState
  import opened ServerFacts

  /** One step; the monitor is taken one path at a time. */
  datatype Step =
    | Serve(env: Env, request: Request)
    | PollCreation(env: Env, path: Path)
    | PollData(env: Env, path: Path)

  ghost function Apply(s: State, step: Step): State {
    match step
    case Serve(env, r) => Handle(s, env, r)
    case PollCreation(env, path) => MonitorCreation(s, env, path)
    case PollData(env, path) => MonitorData(s, env, path)
  }

  ghost function ApplyAll(s: State, run: seq<Step>): State
    decreases |run|
  {
    if run == [] then s else ApplyAll(Apply(s, run[0]), run[1..])
  }

  // ---- What a step does to the entries, the tokens and the lists of produced files ----

  function LocationsAfter(s: State, step: Step): Locations {
    if step.Serve? && step.request.Create? then
      AddProducer(s.locations, step.env.rules, step.env.order, step.request.path, AppName(s.appNames, step.request.tid))
    else s.locations
  }

  ghost predicate SameCore(s: State, t: State) {
    t.locations == s.locations && t.tokens == s.tokens && t.produced == s.produced
  }

  lemma ConsentEffect(s: State, env: Env, tid: Tid, path: Path)
    ensures SameCore(s, HandleConsent(s, env, tid, path))
  {
    if ConsentNow(s, env, tid, path) {
      assert HandleConsent(s, env, tid, path) == s.(responses := Reply(s.responses, tid, 1));
    } else {
      assert HandleConsent(s, env, tid, path) == AddAwaitingData(s, path, tid, 0);
    }
  }

  lemma OpenEffect(s: State, env: Env, tid: Tid, path: Path)
    ensures SameCore(s, HandleOpen(s, env, tid, path))
  {
  }

  lemma ReadEffect(s: State, env: Env, tid: Tid, path: Path, end: U64)
    ensures SameCore(s, HandleRead(s, env, tid, path, end))
  {
    match ReadAnswer(s, env, tid, path, end)
    case Some(v) => assert HandleRead(s, env, tid, path, end) == s.(responses := Reply(s.responses, tid, v));
    case None => assert HandleRead(s, env, tid, path, end) == AddAwaitingData(s, path, tid, end);
  }

  lemma RegisterEffect(s: State, tid: Tid, app: string)
    ensures var t := Register(s, tid, app);
            t.locations == s.locations && t.tokens == s.tokens && (NothingProduced(s) ==> NothingProduced(t))
  {
  }

  lemma QuietRequest(s: State, env: Env, r: Request)
    requires r.Consent? || r.Open? || r.Read? || r.Handshake()
    ensures var t := Handle(s, env, r);
            t.locations == s.locations && t.tokens == s.tokens && (NothingProduced(s) ==> NothingProduced(t))
  {
    match r
    case Consent(tid, path, _) => ConsentEffect(s, env, tid, path);
    case Open(tid, _, path) => OpenEffect(s, env, tid, path);
    case Read(path, tid, _, end) => ReadEffect(s, env, tid, path, end);
    case HandshakeNamed(tid, _, app) => RegisterEffect(s, tid, app);
    case HandshakeAnonymous(tid, _) => RegisterEffect(s, tid, DEFAULT_APP_NAME);
  }

  lemma CloseEffect(s: State, env: Env, tid: Tid, path: Path)
    ensures var t := HandleClose(s, env, tid, path);
            && t.locations == s.locations && t.produced == s.produced
            && t.tokens == if AcceptedClose(s, env, tid, path) then s.tokens[path := Closes(s, path) + 1] else s.tokens
  {
    SetCommittedAnswers(s, env, path);
  }

  lemma CreateEffect(s: State, env: Env, r: Request)
    requires r.Create?
    ensures var t := Handle(s, env, r);
            t.locations == LocationsAfter(s, Serve(env, r)) && t.tokens == s.tokens && t.produced == s.produced
  {
    UnlockCreationAnswers(s, r.path);
  }

  lemma ExitEffect(s: State, env: Env, tid: Tid)
    ensures var t := HandleExit(s, env, tid);
            t.locations == s.locations && TokensGrow(s.tokens, t.tokens)
    ensures NothingProduced(s) ==>
              HandleExit(s, env, tid).tokens == s.tokens && NothingProduced(HandleExit(s, env, tid))
  {
    SetAllCommittedGrows(s, env, if tid in s.produced then s.produced[tid] else []);
  }

  lemma UnlockEffect(s: State, env: Env, path: Path)
    ensures SameCore(s, UnlockCreation(s, path))
    ensures SameCore(s, UnlockData(s, env, path))
  {
    UnlockCreationAnswers(s, path);
    UnlockDataAnswers(s, env, path);
  }

  lemma ApplyLocations(s: State, step: Step)
    ensures Apply(s, step).locations == LocationsAfter(s, step)
    ensures TokensGrow(s.tokens, Apply(s, step).tokens)
  {
    match step
    case PollCreation(env, path) => UnlockEffect(s, env, path);
    case PollData(env, path) => UnlockEffect(s, env, path);
    case Serve(env, r) =>
      if r.Close? { CloseEffect(s, env, r.tid, r.path); }
      else if r.Create? { CreateEffect(s, env, r); }
      else if r.ExitGroup? { ExitEffect(s, env, r.tid); }
      else if r.Rename? { UnlockEffect(s, env, r.new_path); }
      else if r.Write? { UnlockEffect(s, env, r.path); }
      else { QuietRequest(s, env, r); }
  }

  lemma ApplyGrows(s: State, step: Step)
    ensures LocationsGrow(s.locations, Apply(s, step).locations)
    ensures TokensGrow(s.tokens, Apply(s, step).tokens)
  {
    ApplyLocations(s, step);
  }

  /** From one step to the next, directories keep their entries. */
  ghost predicate EntriesKept(fs: FileSystem, run: seq<Step>)
    decreases |run|
  {
    run == [] || (EntriesStay(fs, run[0].env.fs) && EntriesKept(run[0].env.fs, run[1..]))
  }

  /** Before each step, no committed path has become a directory that lacks entries. */
  ghost predicate Steady(s: State, fs: FileSystem, run: seq<Step>)
    decreases |run|
  {
    run == [] ||
      (NewDirectoriesFull(World(s.locations, s.tokens, fs), run[0].env.fs)
       && Steady(Apply(s, run[0]), run[0].env.fs, run[1..]))
  }

  /** No step undoes the commitment of any path. */
  ghost predicate NothingUncommitted(s: State, fs: FileSystem, run: seq<Step>)
    decreases |run|
  {
    run == [] ||
      (var t, gs := Apply(s, run[0]), run[0].env.fs;
       && (forall p | Committed(World(s.locations, s.tokens, fs), p) :: Committed(World(t.locations, t.tokens, gs), p))
       && NothingUncommitted(t, gs, run[1..]))
  }

  /** Over a run commitment is permanent if and only if the run is steady. */
  lemma {:induction false} PermanentExactlyWhenSteady(s: State, fs: FileSystem, run: seq<Step>)
    requires EntriesKept(fs, run)
    ensures NothingUncommitted(s, fs, run) <==> Steady(s, fs, run)
    decreases |run|
  {
    if run != [] {
      var t, gs := Apply(s, run[0]), run[0].env.fs;
      ApplyGrows(s, run[0]);
      PermanenceExactly(World(s.locations, s.tokens, fs), World(t.locations, t.tokens, gs));
      PermanentExactlyWhenSteady(t, gs, run[1..]);
    }
  }

  function LastFiles(fs: FileSystem, run: seq<Step>): FileSystem
    decreases |run|
  {
    if run == [] then fs else LastFiles(run[0].env.fs, run[1..])
  }

  /** Once a path is committed it stays committed, whatever requests and polls follow. */
  lemma {:induction false} CommittedForever(s: State, fs: FileSystem, run: seq<Step>, p: Path)
    requires EntriesKept(fs, run) && Steady(s, fs, run)
    requires Committed(World(s.locations, s.tokens, fs), p)
    ensures var t := ApplyAll(s, run);
            Committed(World(t.locations, t.tokens, LastFiles(fs, run)), p)
    decreases |run|
  {
    if run != [] {
      var t, gs := Apply(s, run[0]), run[0].env.fs;
      ApplyGrows(s, run[0]);
      CommittedStays(World(s.locations, s.tokens, fs), World(t.locations, t.tokens, gs), p);
      CommittedForever(t, gs, run[1..], p);
    }
  }

  /** The dependencies stay acyclic, so `isCommitted` keeps terminating. */
  lemma {:induction false} AcyclicForever(s: State, run: seq<Step>)
    requires Acyclic(s.locations)
    ensures Acyclic(ApplyAll(s, run).locations)
    decreases |run|
  {
    if run != [] {
      ApplyGrows(s, run[0]);
      GrowthKeepsAcyclic(s.locations, Apply(s, run[0]).locations);
      AcyclicForever(Apply(s, run[0]), run[1..]);
    }
  }

  // ---- Counting closes ----

  /** `add_producer_file_path` is never called, so the lists committed at exit are empty. */
  ghost predicate NothingProduced(s: State) {
    forall t | t in s.produced :: s.produced[t] == []
  }

  predicate Accepts(s: State, step: Step, p: Path) {
    step.Serve? && step.request.Close? && step.request.path == p && AcceptedClose(s, step.env, step.request.tid, p)
  }

  /** How many closes of the path are accepted along the run. */
  ghost function AcceptedCloses(s: State, run: seq<Step>, p: Path): nat
    decreases |run|
  {
    if run == [] then 0
    else (if Accepts(s, run[0], p) then 1 else 0) + AcceptedCloses(Apply(s, run[0]), run[1..], p)
  }

  function Closes(s: State, p: Path): nat {
    if p in s.tokens then s.tokens[p] else 0
  }

  lemma ApplyCounts(s: State, step: Step, p: Path)
    requires NothingProduced(s)
    ensures var t := Apply(s, step);
            && NothingProduced(t)
            && Closes(t, p) == Closes(s, p) + (if Accepts(s, step, p) then 1 else 0)
            && (p in t.tokens <==> p in s.tokens || Accepts(s, step, p))
  {
    match step
    case PollCreation(env, path) => UnlockEffect(s, env, path);
    case PollData(env, path) => UnlockEffect(s, env, path);
    case Serve(env, r) =>
      if r.Close? { CloseEffect(s, env, r.tid, r.path); }
      else if r.Create? { CreateEffect(s, env, r); }
      else if r.ExitGroup? { ExitEffect(s, env, r.tid); }
      else if r.Rename? { UnlockEffect(s, env, r.new_path); }
      else if r.Write? { UnlockEffect(s, env, r.path); }
      else { QuietRequest(s, env, r); }
  }

  lemma {:induction false} TokenCountsCloses(s: State, run: seq<Step>, p: Path)
    requires NothingProduced(s)
    ensures var t := ApplyAll(s, run);
            && Closes(t, p) == Closes(s, p) + AcceptedCloses(s, run, p)
            && (p in t.tokens <==> p in s.tokens || AcceptedCloses(s, run, p) > 0)
    decreases |run|
  {
    if run != [] {
      ApplyCounts(s, run[0], p);
      TokenCountsCloses(Apply(s, run[0]), run[1..], p);
    }
  }

  /**
   * From no token, a regular file with rule on_close:n is committed after a
   * run exactly when the run accepted max(1, n) closes of it, n being -1 when
   * the rule gives no number.
   */
  lemma CommittedExactlyAfterNCloses(s: State, run: seq<Step>, fs: FileSystem, p: Path)
    requires NothingProduced(s) && p !in s.tokens && !IsDirectory(fs, p)
    requires CommitRuleOf(ApplyAll(s, run).locations, p) == OnClose
    ensures var t := ApplyAll(s, run);
            var n := t.locations[p].closes;
            Committed(World(t.locations, t.tokens, fs), p) <==> AcceptedCloses(s, run, p) >= (if n >= 1 then n else 1)
  {
    TokenCountsCloses(s, run, p);
    var t := ApplyAll(s, run);
    OnCloseCommitted(World(t.locations, t.tokens, fs), p);
  }

  predicate WaitsFor(s: State, p: Path, t: Tid) {
    p in s.awaitingData && t in s.awaitingData[p]
  }

  /** A waiter stays, with its size, exactly if its condition does not hold. */
  lemma KeepsWaitingExactly(s: State, env: Env, p: Path, t: Tid)
    requires WaitsFor(s, p, t)
    ensures var u := UnlockData(s, env, p);
            && (WaitsFor(u, p, t) <==> !Releasable(s, env, p, t))
            && (WaitsFor(u, p, t) ==> u.awaitingData[p][t] == s.awaitingData[p][t])
  {
    var kept := s.awaitingData[p] - Released(s, env, p);
    assert t in kept <==> !Releasable(s, env, p, t);
    assert t in kept ==> kept != map[];
  }

  lemma SetCommittedKeepsWaiting(s: State, env: Env, p: Path, t: Tid)
    requires WaitsFor(s, p, t)
    ensures var u := SetCommitted(s, env, p);
            && (WaitsFor(u, p, t) <==> !Releasable(CreateToken(s, p), env, p, t))
            && (WaitsFor(u, p, t) ==> u.awaitingData[p][t] == s.awaitingData[p][t])
  {
    var s1 := CreateToken(s, p);
    KeepsWaitingExactly(s1, env, p, t);
    UnlockCreationAnswers(UnlockData(s1, env, p), p);
  }

  /** An accepted close commits a regular file exactly if it is the n-th or a later one, or the rule has no number. */
  lemma CloseCommitsExactly(s: State, env: Env, tid: Tid, p: Path)
    requires AcceptedClose(s, env, tid, p) && !IsDirectory(env.fs, p)
    ensures var n := s.locations[p].closes;
            Committed(WorldOf(HandleClose(s, env, tid, p), env), p) <==> n == -1 || Closes(s, p) + 1 >= n
  {
    CloseEffect(s, env, tid, p);
    OnCloseCommitted(WorldOf(HandleClose(s, env, tid, p), env), p);
  }

  /**
   * The token is checked before its count is raised. So an accepted close
   * wakes a waiter exactly if n closes came before it, the rule has no number,
   * or the waiter is a producer or released by its fire rule: otherwise the
   * close that completes on_close:n commits the file and leaves it waiting.
   */
  lemma CloseWakesExactly(s: State, env: Env, tid: Tid, p: Path, t: Tid)
    requires AcceptedClose(s, env, tid, p) && !IsDirectory(env.fs, p) && WaitsFor(s, p, t)
    ensures var u, n := HandleClose(s, env, tid, p), s.locations[p].closes;
            && (!WaitsFor(u, p, t) <==>
                  || n == -1 || Closes(s, p) >= n || IsProducer(s, env, p, t)
                  || (FireRuleOf(s.locations, p) == NoUpdate && TidAsU64(t) >= FileSize(env.fs, p)))
            && (WaitsFor(u, p, t) ==> u.awaitingData[p][t] == s.awaitingData[p][t])
  {
    OnCloseCommitted(WorldOf(CreateToken(s, p), env), p);
    SetCommittedKeepsWaiting(s, env, p, t);
  }

  /** The one close that an on_close:1 file needs: the file is committed, and its reader goes on waiting. */
  lemma CompletingCloseLeavesReader(env: Env, writer: Tid, reader: Tid, p: Path, end: U64)
    requires writer != reader && env.rules.handled(p) && !IsDirectory(env.fs, p)
    ensures var s := State(map[writer := [], reader := []], map[writer := "writer", reader := "reader"],
                           map[writer := [], reader := []], map[], map[p := map[reader := end]],
                           map[p := Entry(["writer"], OnClose, Update, true, 1, -1, [])], map[]);
            var u := HandleClose(s, env, writer, p);
            && Committed(WorldOf(u, env), p) && WaitsFor(u, p, reader) && u.awaitingData[p][reader] == end
  {
    var s := State(map[writer := [], reader := []], map[writer := "writer", reader := "reader"],
                   map[writer := [], reader := []], map[], map[p := map[reader := end]],
                   map[p := Entry(["writer"], OnClose, Update, true, 1, -1, [])], map[]);
    CloseCommitsExactly(s, env, writer, p);
    CloseWakesExactly(s, env, writer, p, reader);
  }

  /**
   * A close counts exactly if the path is handled, has an entry with rule
   * on_close, and lists the sender's application; otherwise it changes nothing.
   */
  lemma CloseExactly(s: State, env: Env, tid: Tid, p: Path)
    requires tid in s.appNames
    ensures var u := HandleClose(s, env, tid, p);
            if env.rules.handled(p) && p in s.locations && s.locations[p].commit == OnClose
               && s.appNames[tid] in s.locations[p].producers
            then u.tokens == s.tokens[p := (if p in s.tokens then s.tokens[p] else 0) + 1]
            else u == s
  {
    CloseEffect(s, env, tid, p);
  }

  // ---- What an exit commits ----

  lemma {:induction false} SetAllCommittedTokens(s: State, env: Env, paths: seq<Path>, p: Path)
    ensures var u := SetAllCommitted(s, env, paths);
            && (p in u.tokens <==> p in s.tokens || p in paths)
            && (p in s.tokens ==> u.tokens[p] == s.tokens[p])
  {
    if paths != [] {
      var front, last := paths[..|paths| - 1], paths[|paths| - 1];
      SetAllCommittedTokens(s, env, front, p);
      SetCommittedAnswers(SetAllCommitted(s, env, front), env, last);
      assert p in paths <==> p in front || p == last;
    }
  }

  /**
   * A file with the default rule is committed after an exit exactly if it was
   * before, or is on the exiting thread's list of produced files.
   */
  lemma ExitCommitsExactlyTheList(s: State, env: Env, tid: Tid, p: Path)
    requires !IsDirectory(env.fs, p) && CommitRuleOf(s.locations, p) == OnTermination
    ensures Committed(WorldOf(HandleExit(s, env, tid), env), p)
       <==> Committed(WorldOf(s, env), p) || (tid in s.produced && p in s.produced[tid])
  {
    var paths := if tid in s.produced then s.produced[tid] else [];
    SetAllCommittedTokens(s, env, paths, p);
    SetAllCommittedGrows(s, env, paths);
    LeafCommitted(WorldOf(s, env), p);
    LeafCommitted(WorldOf(HandleExit(s, env, tid), env), p);
  }

  /** The lists are empty, so an exit commits nothing. */
  lemma ExitCommitsNothing(s: State, env: Env, tid: Tid, p: Path)
    requires NothingProduced(s)
    ensures Committed(WorldOf(HandleExit(s, env, tid), env), p) <==> Committed(WorldOf(s, env), p)
  {
    ExitEffect(s, env, tid);
  }

  lemma {:induction false} NoCloseAccepted(s: State, run: seq<Step>, p: Path)
    requires CommitRuleOf(ApplyAll(s, run).locations, p) == OnTermination
    ensures CommitRuleOf(s.locations, p) == OnTermination && AcceptedCloses(s, run, p) == 0
    decreases |run|
  {
    if run != [] {
      ApplyGrows(s, run[0]);
      NoCloseAccepted(Apply(s, run[0]), run[1..], p);
    }
  }

  /**
   * A path with the default rule on_termination is committed after a run, exits
   * included, exactly if it is a directory that meets its count, or not a
   * directory and had a token when the run began.
   */
  lemma TerminationCommitsExactly(s: State, run: seq<Step>, fs: FileSystem, p: Path)
    requires NothingProduced(s) && CommitRuleOf(ApplyAll(s, run).locations, p) == OnTermination
    ensures var t := ApplyAll(s, run);
            Committed(World(t.locations, t.tokens, fs), p) <==>
              if IsDirectory(fs, p) then fs[p].entries >= DirectoryFileCount(t.locations, p) else p in s.tokens
  {
    NoCloseAccepted(s, run, p);
    TokenCountsCloses(s, run, p);
    var t := ApplyAll(s, run);
    LeafCommitted(World(t.locations, t.tokens, fs), p);
  }

  // ---- Producers and inherited rules ----

  predicate NoBlanks(name: string) {
    forall i | 0 <= i < |name| :: !IsBlank(name[i])
  }

  lemma {:induction false} StripIsIdentity(name: string)
    ensures |StripBlanks(name)| <= |name|
    ensures StripBlanks(name) == name <==> NoBlanks(name)
  {
    if name != [] {
      StripIsIdentity(name[1..]);
      assert name == [name[0]] + name[1..];
      assert NoBlanks(name) <==> !IsBlank(name[0]) && NoBlanks(name[1..]);
    }
  }

  /** Creating a path makes the creator's application a producer of it, unless its name has blanks. */
  lemma CreatorIsProducer(s: State, env: Env, tid: Tid, path: Path)
    ensures IsProducer(HandleCreate(s, env, tid, path), env, path, tid)
       <==> NoBlanks(AppName(s.appNames, tid))
            || (path in s.locations && AppName(s.appNames, tid) in s.locations[path].producers)
  {
    UnlockCreationAnswers(s, path);
    StripIsIdentity(AppName(s.appNames, tid));
    var t := HandleCreate(s, env, tid, path);
    var before := if path in s.locations then s.locations[path].producers else [];
    assert t.locations[path].producers == before + [StripBlanks(AppName(s.appNames, tid))];
  }

  /** An application whose name has a blank is no producer of the file it creates. */
  lemma BlankNameIsNoProducer(env: Env, tid: Tid, path: Path)
    ensures var s := State(map[tid := []], map[tid := "my app"], map[tid := []], map[], map[], map[], map[]);
            !IsProducer(HandleCreate(s, env, tid, path), env, path, tid)
  {
    var s := State(map[tid := []], map[tid := "my app"], map[tid := []], map[], map[], map[], map[]);
    assert IsBlank("my app"[2]);
    CreatorIsProducer(s, env, tid, path);
  }

  /** The first position of the walk whose key's glob matches the path. */
  predicate FirstToMatch(rules: Rules, order: seq<Path>, path: Path, i: int) {
    0 <= i < |order| && rules.matches(order[i], path) && forall j | 0 <= j < i :: !rules.matches(order[j], path)
  }

  lemma {:induction false} FirstMatchIsFirst(l: Locations, rules: Rules, order: seq<Path>, path: Path)
    requires forall k | k in order :: k in l
    ensures match FirstMatch(l, rules, order, path)
            case Some(k) => exists i :: FirstToMatch(rules, order, path, i) && order[i] == k
            case None => forall i | 0 <= i < |order| :: !rules.matches(order[i], path)
  {
    if order != [] {
      if rules.matches(order[0], path) {
        assert FirstToMatch(rules, order, path, 0);
      } else {
        FirstMatchIsFirst(l, rules, order[1..], path);
        if i :| FirstToMatch(rules, order[1..], path, i) {
          forall j | 0 <= j < i + 1 ensures !rules.matches(order[j], path) {
            if j > 0 { assert order[j] == order[1..][j - 1]; }
          }
          assert FirstToMatch(rules, order, path, i + 1);
        }
        forall i | 0 <= i < |order| && FirstMatch(l, rules, order[1..], path).None?
          ensures !rules.matches(order[i], path)
        {
          if i > 0 { assert order[i] == order[1..][i - 1]; }
        }
      }
    }
  }

  lemma FirstToMatchIsOne(rules: Rules, order: seq<Path>, path: Path, i: int, j: int)
    requires FirstToMatch(rules, order, path, i) && FirstToMatch(rules, order, path, j)
    ensures i == j
  {
  }

  /**
   * A thread is a producer of a path exactly if its application is listed in
   * the entry of the path, or, when the path has none, in the entry of the
   * first key of the walk whose glob matches it.
   */
  lemma ProducerExactly(s: State, env: Env, path: Path, tid: Tid)
    requires Walks(env.order, s.locations) && tid in s.appNames
    ensures IsProducer(s, env, path, tid) <==>
              if path in s.locations then s.appNames[tid] in s.locations[path].producers
              else exists i :: FirstToMatch(env.rules, env.order, path, i)
                     && env.order[i] in s.locations && s.appNames[tid] in s.locations[env.order[i]].producers
  {
    if path !in s.locations {
      FirstMatchIsFirst(s.locations, env.rules, env.order, path);
      if i :| FirstToMatch(env.rules, env.order, path, i) {
        forall j | FirstToMatch(env.rules, env.order, path, j) ensures j == i {
          FirstToMatchIsOne(env.rules, env.order, path, i, j);
        }
      }
    }
  }

  /** The position of the longest directory key whose glob matches the path, the earliest of equals. */
  predicate LongestToMatch(l: Locations, rules: Rules, order: seq<Path>, path: Path, i: int) {
    && 0 <= i < |order| && order[i] in l && rules.matches(order[i], path) && !l[order[i]].isFile && |order[i]| > 0
    && forall j | 0 <= j < |order| && order[j] in l && rules.matches(order[j], path) && !l[order[j]].isFile ::
         |order[j]| < |order[i]| || (|order[j]| == |order[i]| && i <= j)
  }

  lemma {:induction false} LongestMatchIsThere(l: Locations, rules: Rules, order: seq<Path>, path: Path)
    ensures match LongestMatch(l, rules, order, path)
            case Some(k) => exists i :: LongestToMatch(l, rules, order, path, i) && order[i] == k
            case None => forall i :: !LongestToMatch(l, rules, order, path, i)
  {
    if order != [] {
      var front, k := order[..|order| - 1], order[|order| - 1];
      LongestMatchIsThere(l, rules, front, path);
      LongestMatchIsLongest(l, rules, front, path);
      LongestMatchIsLongest(l, rules, order, path);
      if LongestMatch(l, rules, order, path) != LongestMatch(l, rules, front, path) {
        assert forall j | 0 <= j < |front| :: order[j] == front[j] && order[j] in front;
        assert LongestToMatch(l, rules, order, path, |order| - 1);
      } else if LongestMatch(l, rules, front, path).Some? {
        var i :| LongestToMatch(l, rules, front, path, i) && front[i] == LongestMatch(l, rules, front, path).value;
        assert forall j | 0 <= j < |front| :: order[j] == front[j];
        assert LongestToMatch(l, rules, order, path, i);
      } else {
        forall i ensures !LongestToMatch(l, rules, order, path, i) {
          assert 0 <= i < |order| ==> order[i] in order;
        }
      }
    }
  }

  /** What a new path inherits: both rules of that key, or the default ones if there is none. */
  ghost predicate Inherits(e: Entry, l: Locations, rules: Rules, order: seq<Path>, path: Path) {
    || (exists i :: LongestToMatch(l, rules, order, path, i) && order[i] in l
                    && e.commit == l[order[i]].commit && e.fire == l[order[i]].fire)
    || ((forall i :: !LongestToMatch(l, rules, order, path, i)) && e.commit == OnTermination && e.fire == Update)
  }

  /** Nothing but the path gets an entry, and that of a file without producers, counts or dependencies. */
  lemma NewFileExactly(l: Locations, rules: Rules, order: seq<Path>, path: Path)
    ensures var m := NewFile(l, rules, order, path);
            && m.Keys == l.Keys + {path} && (forall q | q in l :: m[q] == l[q])
            && (path !in l ==>
                  && Inherits(m[path], l, rules, order, path)
                  && m[path].producers == [] && m[path].isFile && m[path].deps == []
                  && m[path].closes == -1 && m[path].fileCount == -1)
  {
    LongestMatchIsThere(l, rules, order, path);
    LongestMatchIsLongest(l, rules, order, path);
  }

  /** A creation adds the name without its blanks behind the producers of the path, and changes no other entry. */
  lemma CreateEntriesExactly(s: State, env: Env, tid: Tid, path: Path)
    requires tid in s.appNames
    ensures var l, m := s.locations, HandleCreate(s, env, tid, path).locations;
            && m.Keys == l.Keys + {path} && (forall q | q in l && q != path :: m[q] == l[q])
            && m[path].producers
               == (if path in l then l[path].producers else []) + [StripBlanks(s.appNames[tid])]
            && (if path in l then m[path].(producers := l[path].producers) == l[path]
                else m[path].isFile && Inherits(m[path], l, env.rules, env.order, path))
  {
    UnlockCreationAnswers(s, path);
    NewFileExactly(s.locations, env.rules, env.order, path);
  }

  lemma StripOne(c: char)
    ensures StripBlanks([c]) == if c in " \t\n\r\U{000B}\U{000C}" then [] else [c]
  {
    assert [c][1..] == [];
  }

  /** Blanks go and everything else stays in order. */
  lemma {:induction false} StripConcat(a: string, b: string)
    ensures StripBlanks(a + b) == StripBlanks(a) + StripBlanks(b)
  {
    if a == [] {
      assert a + b == b;
    } else {
      assert (a + b)[1..] == a[1..] + b && (a + b)[0] == a[0];
      StripConcat(a[1..], b);
      var first := if IsBlank(a[0]) then [] else [a[0]];
      Associative(first, StripBlanks(a[1..]), StripBlanks(b));
    }
  }

  lemma Associative(a: string, b: string, c: string)
    ensures a + (b + c) == (a + b) + c
  {
  }

  /** The rule is inherited from a directory key that matches and is as long as any other. */
  lemma {:induction false} LongestMatchIsLongest(l: Locations, rules: Rules, order: seq<Path>, path: Path)
    ensures match LongestMatch(l, rules, order, path)
            case Some(k) =>
              && k in order && Bequeaths(l, rules, k, path) && |k| > 0
              && (forall j | j in order && Bequeaths(l, rules, j, path) :: |j| <= |k|)
            case None => forall j | j in order && Bequeaths(l, rules, j, path) :: |j| == 0
  {
    if order != [] {
      LongestMatchIsLongest(l, rules, order[..|order| - 1], path);
      assert order == order[..|order| - 1] + [order[|order| - 1]];
    }
  }

  predicate InheritsOnFile(l: Locations, rules: Rules, order: seq<Path>, path: Path) {
    var best := LongestMatch(l, rules, order, path);
    best.Some? && CommitRuleOf(l, best.value) == OnFile
  }

  /**
   * A path that gets its entry now is committed at once exactly if it is a
   * directory, inherits the rule on_file, whose dependencies are not
   * inherited, or has a token.
   */
  lemma NewPathCommittedExactly(s: State, env: Env, tid: Tid, path: Path)
    requires path !in s.locations
    ensures Committed(WorldOf(HandleCreate(s, env, tid, path), env), path)
       <==> IsDirectory(env.fs, path) || path in s.tokens || InheritsOnFile(s.locations, env.rules, env.order, path)
  {
    UnlockCreationAnswers(s, path);
    var w := WorldOf(HandleCreate(s, env, tid, path), env);
    assert FileDeps(w.locations, path) == [];
    if Leaf(w, path) { LeafCommitted(w, path); } else { DependentCommitted(w, path); }
  }

  /** The exit of the thread that created a path adds nothing to that. */
  lemma CreatorExitsExactly(s: State, env: Env, tid: Tid, path: Path)
    requires NothingProduced(s) && path !in s.locations
    ensures Committed(WorldOf(HandleExit(HandleCreate(s, env, tid, path), env, tid), env), path)
       <==> IsDirectory(env.fs, path) || path in s.tokens || InheritsOnFile(s.locations, env.rules, env.order, path)
  {
    NewPathCommittedExactly(s, env, tid, path);
    UnlockCreationAnswers(s, path);
    ExitCommitsNothing(HandleCreate(s, env, tid, path), env, tid, path);
  }

  /** A thread creates a file that no rule names, and exits: the file is not committed. */
  lemma ProducerExitsUncommitted(env: Env, tid: Tid, path: Path)
    requires !IsDirectory(env.fs, path)
    ensures var s := State(map[tid := []], map[tid := DEFAULT_APP_NAME], map[tid := []], map[], map[], map[], map[]);
            !Committed(WorldOf(HandleExit(HandleCreate(s, env, tid, path), env, tid), env), path)
  {
    var s := State(map[tid := []], map[tid := DEFAULT_APP_NAME], map[tid := []], map[], map[], map[], map[]);
    NothingMatches(s.locations, env.rules, env.order, path);
    CreatorExitsExactly(s, env, tid, path);
  }

  lemma {:induction false} NothingMatches(l: Locations, rules: Rules, order: seq<Path>, path: Path)
    requires l == map[]
    ensures LongestMatch(l, rules, order, path) == None
  {
    if order != [] { NothingMatches(l, rules, order[..|order| - 1], path); }
  }

  // ---- Handshake and exit ----

  /** An exit right after a handshake undoes it, name included, only if the thread was unknown and its name known. */
  lemma ExitUndoesHandshakeExactly(s: State, env: Env, tid: Tid, app: string)
    requires NothingProduced(s)
    ensures HandleExit(Register(s, tid, app), env, tid) == s
       <==> tid !in s.responses && tid !in s.produced && tid in s.appNames
  {
    assert HandleExit(Register(s, tid, app), env, tid) == Remove(Register(s, tid, app), tid) by {
      assert (if tid in Register(s, tid, app).produced then Register(s, tid, app).produced[tid] else []) == [];
    }
    RemoveUndoesRegister(s, tid, app);
  }

  lemma RemoveUndoesRegister(s: State, tid: Tid, app: string)
    ensures var u := Remove(Register(s, tid, app), tid);
            && u.responses == s.responses - {tid} && u.produced == s.produced - {tid}
            && u.appNames == AddNew(s.appNames, tid, app)
            && (u == s <==> tid !in s.responses && tid !in s.produced && tid in s.appNames)
  {
    var u := Remove(Register(s, tid, app), tid);
    assert tid !in s.responses ==> s.responses - {tid} == s.responses;
    assert tid !in s.produced ==> s.produced - {tid} == s.produced;
    assert u.responses == s.responses - {tid} && u.produced == s.produced - {tid};
  }

  /** A handshake leaves every other thread alone, and a known one with its queue, its list and its name. */
  lemma RegisterAddsOnly(s: State, tid: Tid, app: string, t: Tid)
    ensures var u := Register(s, tid, app);
            && (t in s.responses ==> t in u.responses && u.responses[t] == s.responses[t])
            && (t in s.produced ==> t in u.produced && u.produced[t] == s.produced[t])
            && (t in s.appNames ==> t in u.appNames && u.appNames[t] == s.appNames[t])
            && (t in u.responses <==> t in s.responses || t == tid)
            && (tid !in s.responses ==> u.responses[tid] == [])
            && (tid !in s.appNames ==> u.appNames[tid] == app)
  {
  }

  /** A new thread is called what its handshake says, or by the default name, and has an empty queue. */
  lemma HandshakeNames(s: State, env: Env, r: Request)
    requires r.Handshake() && r.tid !in s.appNames && r.tid !in s.responses && r.tid !in s.produced
    ensures var u := Handle(s, env, r);
            && u.appNames == s.appNames[r.tid := if r.HandshakeNamed? then r.app else "default_app"]
            && u.responses == s.responses[r.tid := []] && u.produced == s.produced[r.tid := []]
            && u.locations == s.locations && u.tokens == s.tokens
            && u.awaitingCreation == s.awaitingCreation && u.awaitingData == s.awaitingData
  {
  }

  /** A thread id that comes back after an exit has its new name exactly if it had none, or the same one. */
  lemma RecycledTidKeepsItsName(s: State, env: Env, tid: Tid, app: string)
    ensures AppName(Register(HandleExit(s, env, tid), tid, app).appNames, tid) == app
       <==> tid !in s.appNames || s.appNames[tid] == app
  {
    SetAllCommittedGrows(s, env, if tid in s.produced then s.produced[tid] else []);
  }

  /** A thread of one application exits, its id comes back in another one and has the name of the first. */
  lemma RecycledTidHasOldName(env: Env, tid: Tid)
    ensures var s := State(map[tid := []], map[tid := "first"], map[tid := []], map[], map[], map[], map[]);
            AppName(Register(HandleExit(s, env, tid), tid, "second").appNames, tid) == "first"
  {
    var s := State(map[tid := []], map[tid := "first"], map[tid := []], map[], map[], map[], map[]);
    SetAllCommittedGrows(s, env, []);
  }
}
