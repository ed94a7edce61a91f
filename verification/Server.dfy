/**
 * The server's objects and handlers, changed in place. Each method is proved
 * against the function of `ServerState` with the same role.
 */
module Server {
  import opened Types
  import opened Requests
  import opened CommitRules
  import opened ServerState
  import opened ServerFacts

  class ClientManager {
    /** The contents of the response queue of each thread. */
    var bufsResponse: Responses
    var appNames: map<Tid, string>
    var filesToBeCommittedByTid: map<Tid, seq<Path>>

    constructor ()
      ensures bufsResponse == map[] && appNames == map[] && filesToBeCommittedByTid == map[]
    {
      bufsResponse, appNames, filesToBeCommittedByTid := map[], map[], map[];
    }

    method RegisterNewClient(tid: Tid, app: string)
      modifies this
      ensures bufsResponse == AddNew(old(bufsResponse), tid, [])
      ensures appNames == AddNew(old(appNames), tid, app)
      ensures filesToBeCommittedByTid == AddNew(old(filesToBeCommittedByTid), tid, [])
    {
      bufsResponse := AddNew(bufsResponse, tid, []);
      appNames := AddNew(appNames, tid, app);
      filesToBeCommittedByTid := AddNew(filesToBeCommittedByTid, tid, []);
    }

    method RemoveClient(tid: Tid)
      modifies this`bufsResponse, this`filesToBeCommittedByTid
      ensures bufsResponse == old(bufsResponse) - {tid}
      ensures filesToBeCommittedByTid == old(filesToBeCommittedByTid) - {tid}
    {
      bufsResponse := bufsResponse - {tid};
      filesToBeCommittedByTid := filesToBeCommittedByTid - {tid};
    }

    method ReplyToClient(tid: Tid, offset: U64)
      requires tid in bufsResponse
      modifies this`bufsResponse
      ensures bufsResponse == Reply(old(bufsResponse), tid, offset)
    {
      bufsResponse := bufsResponse[tid := bufsResponse[tid] + [offset]];
    }

    function GetProducedFiles(tid: Tid): seq<Path>
      reads this
      requires tid in filesToBeCommittedByTid
    {
      filesToBeCommittedByTid[tid]
    }

    function GetAppName(tid: Tid): (name: string)
      reads this
      requires tid in appNames
      ensures name == AppName(appNames, tid)
    {
      appNames[tid]
    }
  }

  class CapioCLEngine {
    var locations: Locations
    const clientManager: ClientManager

    constructor (locations: Locations, clientManager: ClientManager)
      ensures this.locations == locations && this.clientManager == clientManager
    {
      this.locations, this.clientManager := locations, clientManager;
    }

    /** Adds a missing entry, with the rules of the longest matching directory key. */
    method NewFileEntry(rules: Rules, order: seq<Path>, path: Path)
      requires Walks(order, locations)
      modifies this`locations
      ensures locations == NewFile(old(locations), rules, order, path)
    {
      if path !in locations {
        var commit, fire := OnTermination, Update;
        var matchSize := 0;
        var i := 0;
        while i < |order|
          invariant 0 <= i <= |order| && locations == old(locations)
          invariant var best := LongestMatch(locations, rules, order[..i], path);
                    && matchSize == (if best.Some? then |best.value| else 0)
                    && (best.Some? ==> best.value in locations)
                    && commit == (if best.Some? then locations[best.value].commit else OnTermination)
                    && fire == (if best.Some? then locations[best.value].fire else Update)
        {
          var filename := order[i];
          assert order[..i + 1][..i] == order[..i] && filename in order;
          if rules.matches(filename, path) && !locations[filename].isFile && |filename| > matchSize {
            matchSize := |filename|;
            commit := locations[filename].commit;
            fire := locations[filename].fire;
          }
          i := i + 1;
        }
        assert order[..i] == order;
        locations := locations[path := Entry([], commit, fire, true, -1, -1, [])];
      }
    }

    method AddProducerTo(rules: Rules, order: seq<Path>, path: Path, producer: string)
      requires Walks(order, locations)
      modifies this`locations
      ensures locations == AddProducer(old(locations), rules, order, path, producer)
    {
      var name := StripBlanks(producer);
      NewFileEntry(rules, order, path);
      if path in locations {
        locations := locations[path := locations[path].(producers := locations[path].producers + [name])];
      }
    }

    /** Looks for an exact entry, then for the first glob that matches. */
    method IsProducerOf(rules: Rules, order: seq<Path>, path: Path, tid: Tid) returns (yes: bool)
      requires tid in clientManager.appNames && Walks(order, locations)
      ensures yes == (AppName(clientManager.appNames, tid) in ProducersFor(locations, rules, order, path))
    {
      var appName := clientManager.GetAppName(tid);
      if path in locations {
        return appName in locations[path].producers;
      }
      var i := 0;
      while i < |order|
        invariant 0 <= i <= |order|
        invariant FirstMatch(locations, rules, order, path) == FirstMatch(locations, rules, order[i..], path)
      {
        assert order[i] in order && order[i..][1..] == order[i + 1..];
        if rules.matches(order[i], path) {
          return appName in locations[order[i]].producers;
        }
        i := i + 1;
      }
      return false;
    }
  }

  class CapioFileManager {
    var threadAwaitingFileCreation: map<Path, seq<Tid>>
    var threadAwaitingData: map<Path, map<Tid, U64>>
    /** The token files of the metadata directory. */
    var tokens: map<Path, nat>
    const clientManager: ClientManager
    const engine: CapioCLEngine

    ghost predicate Linked()
      reads this
    {
      engine.clientManager == clientManager
    }

    ghost function State(): ServerState.State
      reads this, clientManager, engine
    {
      ServerState.State(clientManager.bufsResponse, clientManager.appNames, clientManager.filesToBeCommittedByTid,
                  threadAwaitingFileCreation, threadAwaitingData, engine.locations, tokens)
    }

    constructor (clientManager: ClientManager, engine: CapioCLEngine)
      requires engine.clientManager == clientManager
      ensures Linked() && this.clientManager == clientManager && this.engine == engine
      ensures threadAwaitingFileCreation == map[] && threadAwaitingData == map[] && tokens == map[]
    {
      this.clientManager, this.engine := clientManager, engine;
      threadAwaitingFileCreation, threadAwaitingData, tokens := map[], map[], map[];
    }

    method AddThreadAwaitingCreation(path: Path, tid: Tid)
      modifies this`threadAwaitingFileCreation
      ensures State() == AddAwaitingCreation(old(State()), path, tid)
    {
      if path !in threadAwaitingFileCreation {
        threadAwaitingFileCreation := threadAwaitingFileCreation[path := []];
      }
      threadAwaitingFileCreation := threadAwaitingFileCreation[path := threadAwaitingFileCreation[path] + [tid]];
    }

    method UnlockThreadAwaitingCreation(path: Path)
      requires WaitersKnown(State())
      modifies this`threadAwaitingFileCreation, clientManager`bufsResponse
      ensures State() == UnlockCreation(old(State()), path)
    {
      if path in threadAwaitingFileCreation {
        var th := threadAwaitingFileCreation[path];
        var i := 0;
        while i < |th|
          invariant 0 <= i <= |th|
          invariant clientManager.bufsResponse == ReplyEach(old(clientManager.bufsResponse), th[..i], 1)
          invariant clientManager.bufsResponse.Keys == old(clientManager.bufsResponse).Keys
          invariant threadAwaitingFileCreation == old(threadAwaitingFileCreation)
        {
          assert th[..i + 1][..i] == th[..i];
          clientManager.ReplyToClient(th[i], 1);
          i := i + 1;
        }
        assert th[..i] == th;
        threadAwaitingFileCreation := threadAwaitingFileCreation - {path};
      }
    }

    method AddThreadAwaitingData(path: Path, tid: Tid, expectedSize: U64)
      modifies this`threadAwaitingData
      ensures State() == AddAwaitingData(old(State()), path, tid, expectedSize)
    {
      if path !in threadAwaitingData {
        threadAwaitingData := threadAwaitingData[path := map[]];
      }
      threadAwaitingData := threadAwaitingData[path := AddNew(threadAwaitingData[path], tid, expectedSize)];
    }

    /** Whether a thread waiting for data of the path may go on. */
    method LockCondition(env: Env, path: Path, tid: Tid) returns (lockCondition: bool)
      requires Linked() && tid in clientManager.appNames
      requires Acyclic(engine.locations) && Walks(env.order, engine.locations)
      ensures lockCondition <==> Releasable(State(), env, path, tid)
    {
      var filesize := if IsDirectory(env.fs, path) then ULLONG_MAX else FileSize(env.fs, path);
      var committed := IsCommitted(World(engine.locations, tokens, env.fs), path);
      var fileSizeCheck := TidAsU64(tid) >= filesize;
      var isFnu := FireRuleOf(engine.locations, path) == NoUpdate;
      var isProducer := engine.IsProducerOf(env.rules, env.order, path, tid);
      return committed || isProducer || (fileSizeCheck && isFnu);
    }

    /** Walks the waiters of the path, answering and erasing those whose condition holds. */
    method AnswerWaiters(env: Env, path: Path) returns (threads: map<Tid, U64>)
      requires Linked() && WaitersKnown(State()) && Acyclic(engine.locations) && Walks(env.order, engine.locations)
      requires path in threadAwaitingData
      modifies clientManager`bufsResponse
      ensures clientManager.bufsResponse
           == ReplySet(old(clientManager.bufsResponse), Released(old(State()), env, path), ReleaseValue(env.fs, path))
      ensures threads == threadAwaitingData[path] - Released(old(State()), env, path)
    {
      ghost var s := State();
      ghost var released, value := Released(s, env, path), ReleaseValue(env.fs, path);
      threads := threadAwaitingData[path];
      var todo := threads.Keys;
      ReplyToNobody(s.responses, value);
      while todo != {}
        invariant todo <= s.awaitingData[path].Keys
        invariant clientManager.bufsResponse == ReplySet(s.responses, released - todo, value)
        invariant threads == s.awaitingData[path] - (released - todo)
      {
        var tid :| tid in todo;
        assert State() == s.(responses := clientManager.bufsResponse);
        var lockCondition := LockCondition(env, path, tid);
        Visit(released, todo, tid);
        if lockCondition {
          ReplyToOneMore(s.responses, released - todo, tid, value);
          clientManager.ReplyToClient(tid, if IsDirectory(env.fs, path) then ULLONG_MAX else FileSize(env.fs, path));
          EraseOneMore(s.awaitingData[path], released - todo, tid);
          threads := threads - {tid};
        }
        todo := todo - {tid};
      }
      assert released - {} == released;
    }

    method CheckAndUnlockThreadAwaitingData(env: Env, path: Path)
      requires Linked() && WaitersKnown(State()) && Acyclic(engine.locations) && Walks(env.order, engine.locations)
      modifies this`threadAwaitingData, clientManager`bufsResponse
      ensures State() == UnlockData(old(State()), env, path)
    {
      if path in threadAwaitingData {
        var threads := AnswerWaiters(env, path);
        threadAwaitingData := threadAwaitingData[path := threads];
        if threads == map[] {
          threadAwaitingData := threadAwaitingData - {path};
        }
        assert threadAwaitingData == SetWaiters(old(threadAwaitingData), path, threads);
      }
    }

    /** `setCommitted` of a path: makes sure of the token, then wakes the waiters. */
    method SetCommittedPath(env: Env, path: Path)
      requires Linked() && WaitersKnown(State()) && Acyclic(engine.locations) && Walks(env.order, engine.locations)
      modifies this, clientManager`bufsResponse
      ensures State() == SetCommitted(old(State()), env, path)
    {
      if path !in tokens {
        tokens := tokens[path := 0];
      }
      UnlockDataAnswers(State(), env, path);
      AnswersKeepKnown(State(), UnlockData(State(), env, path));
      CheckAndUnlockThreadAwaitingData(env, path);
      UnlockThreadAwaitingCreation(path);
    }

    /** `setCommitted` of a thread: the files it produced. */
    method SetCommittedByTid(env: Env, tid: Tid)
      requires Linked() && WaitersKnown(State()) && Acyclic(engine.locations) && Walks(env.order, engine.locations)
      requires tid in clientManager.filesToBeCommittedByTid
      modifies this, clientManager`bufsResponse
      ensures State() == SetAllCommitted(old(State()), env, old(State()).produced[tid])
    {
      var files := clientManager.GetProducedFiles(tid);
      var i := 0;
      while i < |files|
        invariant 0 <= i <= |files|
        invariant State() == SetAllCommitted(old(State()), env, files[..i])
        invariant WaitersKnown(State()) && State().locations == old(State()).locations
      {
        assert files[..i + 1][..i] == files[..i];
        SetCommittedKeepsKnown(State(), env, files[i]);
        SetCommittedPath(env, files[i]);
        i := i + 1;
      }
      assert files[..i] == files;
    }

    method IncreaseCloseCountOf(path: Path)
      modifies this`tokens
      ensures State() == IncreaseCloseCount(old(State()), path)
    {
      var closeCount := if path in tokens then tokens[path] else 0;
      tokens := tokens[path := closeCount + 1];
    }
  }

  // ---- Handlers ----

  /** What every handler may rely on. */
  ghost predicate Ready(fm: CapioFileManager, env: Env)
    reads fm, fm.clientManager, fm.engine
  {
    && fm.Linked() && WaitersKnown(fm.State())
    && Acyclic(fm.engine.locations) && Walks(env.order, fm.engine.locations)
  }

  method ConsentToProceedHandler(fm: CapioFileManager, env: Env, tid: Tid, path: Path)
    requires Ready(fm, env) && Known(fm.State(), tid)
    modifies fm, fm.clientManager
    ensures fm.State() == HandleConsent(old(fm.State()), env, tid, path)
  {
    if !env.rules.handled(path) {
      fm.clientManager.ReplyToClient(tid, 1);
      return;
    }
    var producer := fm.engine.IsProducerOf(env.rules, env.order, path, tid);
    if producer {
      fm.clientManager.ReplyToClient(tid, 1);
      return;
    }
    var exists_ := path in env.fs;
    var committed := IsCommitted(World(fm.engine.locations, fm.tokens, env.fs), path);
    var firable := FireRuleOf(fm.engine.locations, path) == NoUpdate;
    if exists_ && (committed || firable) {
      fm.clientManager.ReplyToClient(tid, 1);
    } else {
      fm.AddThreadAwaitingData(path, tid, 0);
    }
  }

  method CloseHandler(fm: CapioFileManager, env: Env, tid: Tid, path: Path)
    requires Ready(fm, env) && Known(fm.State(), tid)
    modifies fm, fm.clientManager
    ensures fm.State() == HandleClose(old(fm.State()), env, tid, path)
  {
    if !env.rules.handled(path) {
      return;
    }
    if CommitRuleOf(fm.engine.locations, path) == OnClose {
      var producer := fm.engine.IsProducerOf(env.rules, env.order, path, tid);
      if producer {
        fm.SetCommittedPath(env, path);
        fm.IncreaseCloseCountOf(path);
      }
    }
  }

  method CreateHandler(fm: CapioFileManager, env: Env, tid: Tid, path: Path)
    requires Ready(fm, env) && Known(fm.State(), tid)
    modifies fm, fm.clientManager, fm.engine
    ensures fm.State() == HandleCreate(old(fm.State()), env, tid, path)
  {
    UnlockCreationAnswers(fm.State(), path);
    fm.UnlockThreadAwaitingCreation(path);
    var name := fm.clientManager.GetAppName(tid);
    fm.engine.AddProducerTo(env.rules, env.order, path, name);
  }

  method OpenHandler(fm: CapioFileManager, env: Env, tid: Tid, path: Path)
    requires Ready(fm, env) && Known(fm.State(), tid)
    modifies fm, fm.clientManager
    ensures fm.State() == HandleOpen(old(fm.State()), env, tid, path)
  {
    var proceed := path in env.fs;
    if !proceed {
      proceed := fm.engine.IsProducerOf(env.rules, env.order, path, tid);
    }
    if proceed {
      fm.clientManager.ReplyToClient(tid, 1);
    } else {
      fm.AddThreadAwaitingCreation(path, tid);
    }
  }

  method ReadHandler(fm: CapioFileManager, env: Env, tid: Tid, path: Path, endOfRead: U64)
    requires Ready(fm, env) && Known(fm.State(), tid)
    modifies fm, fm.clientManager
    ensures fm.State() == HandleRead(old(fm.State()), env, tid, path, endOfRead)
  {
    if !env.rules.handled(path) {
      fm.clientManager.ReplyToClient(tid, 1);
      return;
    }
    var isCommitted := IsCommitted(World(fm.engine.locations, fm.tokens, env.fs), path);
    var fileSize := FileSize(env.fs, path);
    var proceed := fileSize >= endOfRead || isCommitted;
    if !proceed {
      proceed := fm.engine.IsProducerOf(env.rules, env.order, path, tid);
    }
    if proceed {
      fm.clientManager.ReplyToClient(tid, if isCommitted then ULLONG_MAX else fileSize);
    } else {
      fm.AddThreadAwaitingData(path, tid, endOfRead);
    }
  }

  method ExitHandler(fm: CapioFileManager, env: Env, tid: Tid)
    requires Ready(fm, env) && Known(fm.State(), tid)
    modifies fm, fm.clientManager
    ensures fm.State() == HandleExit(old(fm.State()), env, tid)
  {
    fm.SetCommittedByTid(env, tid);
    fm.clientManager.RemoveClient(tid);
  }

  method WriteHandler(fm: CapioFileManager, env: Env, path: Path)
    requires Ready(fm, env)
    modifies fm, fm.clientManager
    ensures fm.State() == HandleWrite(old(fm.State()), env, path)
  {
    if !env.rules.handled(path) {
      return;
    }
    fm.CheckAndUnlockThreadAwaitingData(env, path);
  }

  method RenameHandler(fm: CapioFileManager, newPath: Path)
    requires WaitersKnown(fm.State())
    modifies fm, fm.clientManager
    ensures fm.State() == UnlockCreation(old(fm.State()), newPath)
  {
    fm.UnlockThreadAwaitingCreation(newPath);
  }

  method HandshakeHandler(fm: CapioFileManager, tid: Tid, app: string)
    modifies fm.clientManager
    ensures fm.State() == Register(old(fm.State()), tid, app)
  {
    fm.clientManager.RegisterNewClient(tid, app);
  }

  /** The table of handlers: one request taken off the queue and handled. */
  method Dispatch(fm: CapioFileManager, env: Env, r: Request)
    requires Ready(fm, env) && (LooksUpSender(r) ==> Known(fm.State(), r.tid))
    modifies fm, fm.clientManager, fm.engine
    ensures fm.State() == Handle(old(fm.State()), env, r)
  {
    match r
    case Consent(tid, path, _) => ConsentToProceedHandler(fm, env, tid, path);
    case Close(tid, path) => CloseHandler(fm, env, tid, path);
    case Create(tid, _, path) => CreateHandler(fm, env, tid, path);
    case ExitGroup(tid) => ExitHandler(fm, env, tid);
    case HandshakeNamed(tid, _, app) => HandshakeHandler(fm, tid, app);
    case HandshakeAnonymous(tid, _) => HandshakeHandler(fm, tid, DEFAULT_APP_NAME);
    case Open(tid, _, path) => OpenHandler(fm, env, tid, path);
    case Read(path, tid, _, end) => ReadHandler(fm, env, tid, path, end);
    case Rename(_, _, newPath) => RenameHandler(fm, newPath);
    case Write(_, _, path, _) => WriteHandler(fm, env, path);
  }
}
