/**
 * The whole system with the read caches of its clients, over files that
 * change in any way. What the caches rely on is said of one path at a time.
 */
module CachedReads {
  import opened Types
  import opened Requests
  import opened CommitRules
  import opened ServerState
  import opened Places
  import opened WholeSystem
  import opened ReadCache
  import opened Guarantees

  /** A thread's cache, and the key under which the answer it waits for goes. */
  datatype Reader = Reader(cache: Cache, key: Path)

  datatype Cached = Cached(sys: System, rules: Rules, fs: FileSystem, readers: map<Tid, Reader>)

  datatype Event =
    | Files(fs: FileSystem)
    | Step(action: Action)
    | Skip(tid: Tid, path: Path, end: U64, fd: Int32)
    | Ask(tid: Tid, path: Path, end: U64, fd: Int32)
    | Told(tid: Tid)

  /** The files and the rules a step of the server works with are the current ones. */
  ghost predicate EnvOk(c: Cached, a: Action) {
    a.Serve? || a.PollCreation? || a.PollData? ==> a.env.rules == c.rules && a.env.fs == c.fs
  }

  predicate WaitsToRead(sys: System, t: Tid) {
    IsBlocked(sys, t) && sys.clients[t].at < |sys.log| && sys.log[sys.clients[t].at].Read?
  }

  function ReadOf(sys: System, t: Tid): Request
    requires WaitsToRead(sys, t)
  {
    sys.log[sys.clients[t].at]
  }

  /** Reads go through the cache of the thread, so they are events of their own. */
  ghost predicate Possible(c: Cached, e: Event) {
    match e
    case Files(_) => true
    case Step(a) =>
      && Enabled(c.sys, a) && EnvOk(c, a)
      && (a.Send? ==> !a.request.Read?) && (a.Receive? ==> !WaitsToRead(c.sys, a.tid))
    case Skip(t, path, end, fd) =>
      Status(c.sys, t, Running) && path != "" && t in c.readers && !Asks(c.readers[t].cache, path, end, fd)
    case Ask(t, path, end, fd) =>
      Status(c.sys, t, Running) && path != "" && t in c.readers && Asks(c.readers[t].cache, path, end, fd)
    case Told(t) => WaitsToRead(c.sys, t) && t in c.readers && Enabled(c.sys, Receive(t))
  }

  ghost function Next(c: Cached, e: Event): Cached
    requires Possible(c, e)
  {
    match e
    case Files(gs) => c.(fs := gs)
    case Step(a) =>
      // A thread gets an empty cache when it starts.
      c.(sys := Do(c.sys, a), readers := if a.Wake? then c.readers[a.tid := Reader(EMPTY, "")] else c.readers)
    case Skip(t, path, end, fd) =>
      c.(readers := c.readers[t := Reader(Enter(c.readers[t].cache, path, fd), "")])
    case Ask(t, path, end, fd) =>
      var cache := c.readers[t].cache;
      c.(sys := Do(c.sys, Send(Read(path, t, fd, end))),
         readers := c.readers[t := Reader(Enter(cache, path, fd), KeyLeft(cache, path, fd))])
    case Told(t) =>
      var r := c.readers[t];
      c.(sys := Do(c.sys, Receive(t)),
         readers := c.readers[t := Reader(Store(r.cache, r.key, c.sys.server.responses[t][0]), "")])
  }

  ghost predicate History(c: Cached, run: seq<Event>)
    decreases |run|
  {
    run == [] || (Possible(c, run[0]) && History(Next(c, run[0]), run[1..]))
  }

  ghost function Outcome(c: Cached, run: seq<Event>): Cached
    requires History(c, run)
    decreases |run|
  {
    if run == [] then c else Outcome(Next(c, run[0]), run[1..])
  }

  // ---- What a cached value means ----

  function WorldNow(c: Cached): World {
    World(c.sys.server.locations, c.sys.server.tokens, c.fs)
  }

  /** A handled regular file is committed, or has at least the size the cache holds. */
  ghost predicate Justified(rules: Rules, w: World, p: Path, v: U64) {
    p == "" || !rules.handled(p) || IsDirectory(w.fs, p) || Committed(w, p) || FileSize(w.fs, p) >= v
  }

  /** The most a reader may have been granted. */
  ghost function Granted(w: World, p: Path): U64 {
    if IsDirectory(w.fs, p) || Committed(w, p) then ULLONG_MAX else FileSize(w.fs, p)
  }

  /** A change of the world takes nothing back that was granted of the path. */
  ghost predicate Reliable(rules: Rules, w: World, v: World, p: Path) {
    Justified(rules, v, p, Granted(w, p))
  }

  /** What a cache says of one path is justified. */
  ghost predicate CacheOk(rules: Rules, w: World, cache: Cache, p: Path) {
    && (cache.path == p ==> Justified(rules, w, p, cache.maxRead))
    && (p in cache.available ==> Justified(rules, w, p, cache.available[p]))
  }

  ghost predicate AnswerOk(c: Cached, p: Path, t: Tid) {
    WaitsToRead(c.sys, t) && ReadOf(c.sys, t).path == p && At(c.sys.server, t, Answered(0)) ==>
      Justified(c.rules, WorldNow(c), p, c.sys.server.responses[t][0])
  }

  predicate AskOk(c: Cached, t: Tid) {
    WaitsToRead(c.sys, t) ==>
      && t in c.readers
      && c.readers[t].cache.path == ReadOf(c.sys, t).path
      && c.readers[t].key in ["", ReadOf(c.sys, t).path]
  }

  ghost predicate ReaderOk(c: Cached, p: Path, t: Tid) {
    && (t in c.readers ==> CacheOk(c.rules, WorldNow(c), c.readers[t].cache, p))
    && AnswerOk(c, p, t) && AskOk(c, t)
  }

  ghost predicate CachedInv(c: Cached, p: Path) {
    Inv(c.sys) && forall t :: ReaderOk(c, p, t)
  }

  /** The changes of the files along a history take nothing back that was granted of the path. */
  ghost predicate Dependable(c: Cached, run: seq<Event>, p: Path)
    requires History(c, run)
    decreases |run|
  {
    run == [] ||
      ((run[0].Files? ==> Reliable(c.rules, WorldNow(c), WorldNow(Next(c, run[0])), p))
       && Dependable(Next(c, run[0]), run[1..], p))
  }

  // ---- What the caches rely on ----

  lemma StaysJustified(rules: Rules, w: World, v: World, p: Path, x: U64)
    requires Reliable(rules, w, v, p) && Justified(rules, w, p, x)
    ensures Justified(rules, v, p, x)
  {
  }

  lemma CacheStaysOk(rules: Rules, w: World, v: World, cache: Cache, p: Path)
    requires Reliable(rules, w, v, p) && CacheOk(rules, w, cache, p)
    ensures CacheOk(rules, v, cache, p)
  {
  }

  lemma EnterKeepsOk(rules: Rules, w: World, cache: Cache, path: Path, fd: int, p: Path)
    requires CacheOk(rules, w, cache, p)
    ensures CacheOk(rules, w, Enter(cache, path, fd), p)
  {
  }

  lemma StoreKeepsOk(rules: Rules, w: World, cache: Cache, key: Path, v: U64, p: Path)
    requires CacheOk(rules, w, cache, p) && key in ["", cache.path]
    requires cache.path == p ==> Justified(rules, w, p, v)
    ensures CacheOk(rules, w, Store(cache, key, v), p)
  {
  }

  /** What the cache lets through, it is justified to. */
  lemma SkippingIsJustified(rules: Rules, w: World, cache: Cache, path: Path, end: U64, fd: int)
    requires CacheOk(rules, w, cache, path) && !Asks(cache, path, end, fd)
    ensures Justified(rules, w, path, end)
  {
    EnterKeepsOk(rules, w, cache, path, fd, path);
  }

  /** And the server asked then would answer at once. */
  lemma JustifiedIsAnswered(s: State, env: Env, t: Tid, path: Path, end: U64)
    requires Justified(env.rules, WorldOf(s, env), path, end) && path != "" && !IsDirectory(env.fs, path)
    ensures ReadAnswer(s, env, t, path, end).Some?
  {
  }

  /**
   * Between two worlds, of which nothing else is asked: every cache that was
   * justified in the first skips the server only where it would answer at once
   * in the second, if and only if nothing granted of the path was taken back,
   * that is, the file is committed or no smaller than what was granted.
   */
  lemma SkipsAreSafeExactly(w: World, s: State, env: Env, t: Tid, p: Path, fd: int)
    requires p != "" && env.rules.handled(p) && !IsDirectory(env.fs, p) && !IsProducer(s, env, p, t)
    ensures (forall cache: Cache, end: U64 | CacheOk(env.rules, w, cache, p) && !Asks(cache, p, end, fd) ::
               ReadAnswer(s, env, t, p, end).Some?)
       <==> Committed(WorldOf(s, env), p) || FileSize(env.fs, p) >= Granted(w, p)
  {
    var v := WorldOf(s, env);
    if Reliable(env.rules, w, v, p) {
      forall cache: Cache, end: U64 | CacheOk(env.rules, w, cache, p) && !Asks(cache, p, end, fd)
        ensures ReadAnswer(s, env, t, p, end).Some?
      {
        CacheStaysOk(env.rules, w, v, cache, p);
        SkippingIsJustified(env.rules, v, cache, p, end, fd);
        JustifiedIsAnswered(s, env, t, p, end);
      }
    } else {
      var cache := Cache(fd, p, Granted(w, p), map[]);
      assert CacheOk(env.rules, w, cache, p) && !Asks(cache, p, Granted(w, p), fd);
      assert ReadAnswer(s, env, t, p, Granted(w, p)).None?;
    }
  }

  /**
   * For a regular file that does not shrink, while entries, tokens and
   * directories grow: nothing is taken back if and only if it was not
   * committed, has the greatest size, or no directory that is new below it
   * lacks entries.
   */
  lemma GrowthIsReliableExactly(rules: Rules, w: World, v: World, p: Path)
    requires Grows(w, v) && p != "" && rules.handled(p) && !IsDirectory(w.fs, p) && !IsDirectory(v.fs, p)
    requires FileSize(v.fs, p) >= FileSize(w.fs, p)
    ensures Reliable(rules, w, v, p)
       <==> !Committed(w, p) || FileSize(v.fs, p) == ULLONG_MAX
            || forall q | Reaches(v, p, q) && BecomesDirectory(w.fs, v.fs, q) ::
                 v.fs[q].entries >= DirectoryFileCount(w.locations, q)
  {
    if Committed(w, p) { PathStaysCommittedExactly(w, v, p); }
  }

  /**
   * A file depends on a directory that is not there yet and has no dependency
   * of its own: both are committed, and a reader is told so. Then the directory
   * is created empty, where one entry is configured. The cache lets the next
   * read through, and the server would hold it back.
   */
  lemma CacheOutlivesCommitment(rules: Rules, p: Path, q: Path, t: Tid, fd: int)
    requires p != "" && q != p && rules.handled(p)
    ensures var l := map[p := Entry([], OnFile, Update, true, -1, -1, [q]),
                         q := Entry([], OnFile, Update, false, -1, 1, [])];
            var s := State(map[t := []], map[t := "reader"], map[t := []], map[], map[], l, map[]);
            var before := Env(rules, map[p := Regular(0)], [p, q]);
            var after := Env(rules, map[p := Regular(0), q := Directory(0, 0)], [p, q]);
            var cache := Store(Enter(EMPTY, p, fd), KeyLeft(EMPTY, p, fd), ULLONG_MAX);
            && Asks(EMPTY, p, 1, fd) && ReadAnswer(s, before, t, p, 1) == Some(ULLONG_MAX)
            && EntriesStay(before.fs, after.fs)
            && !Asks(cache, p, 1, fd) && ReadAnswer(s, after, t, p, 1) == None
  {
    var l := map[p := Entry([], OnFile, Update, true, -1, -1, [q]), q := Entry([], OnFile, Update, false, -1, 1, [])];
    var w := World(l, map[], map[p := Regular(0)]);
    var v := World(l, map[], map[p := Regular(0), q := Directory(0, 0)]);
    DependentCommitted(w, q);
    DependentCommitted(w, p);
    LeafCommitted(v, q);
    DependentCommitted(v, p);
    assert q in FileDeps(l, p);
  }

  // ---- The answers of the server ----

  /** A step of the server takes nothing back. */
  lemma ServerIsReliable(c: Cached, a: Action, p: Path)
    requires Enabled(c.sys, a)
    ensures var u := Do(c.sys, a).server; Reliable(c.rules, WorldNow(c), World(u.locations, u.tokens, c.fs), p)
  {
    DoGrows(c.sys, a);
    if Committed(WorldNow(c), p) {
      var u := Do(c.sys, a).server;
      CommittedStays(WorldNow(c), World(u.locations, u.tokens, c.fs), p);
    }
  }

  lemma ReadAnswerIsJustified(s: State, env: Env, t: Tid, path: Path, end: U64)
    ensures match ReadAnswer(s, env, t, path, end)
            case Some(v) => Justified(env.rules, WorldOf(s, env), path, v)
            case None => true
  {
  }

  lemma AnswerNowOk(c: Cached, env: Env, t: Tid)
    requires Inv(c.sys) && Enabled(c.sys, Serve(env)) && env.rules == c.rules && env.fs == c.fs
    requires WaitsToRead(c.sys, t) && c.sys.clients[t].at == c.sys.head
    ensures AnswerOk(Next(c, Step(Serve(env))), ReadOf(c.sys, t).path, t)
  {
    var s, r := c.sys.server, ReadOf(c.sys, t);
    var u := Handle(s, env, r);
    assert ClientOk(c.sys, t) && Placed(c.sys, t);
    ReadAnswerIsJustified(s, env, t, r.path, r.end);
    match ReadAnswer(s, env, t, r.path, r.end)
    case Some(v) =>
      assert !At(s, t, Answered(0));
      assert At(u, t, Answered(0)) ==> u.responses[t][0] == v;
    case None =>
      assert !At(s, t, Answered(0));
  }

  lemma AnswerStaysOk(c: Cached, a: Action, p: Path, t: Tid)
    requires CachedInv(c, p) && Possible(c, Step(a)) && (a.Serve? || a.PollCreation? || a.PollData?)
    ensures AnswerOk(Next(c, Step(a)), p, t)
  {
    if WaitsToRead(c.sys, t) && ReadOf(c.sys, t).path == p {
      if a.Serve? && c.sys.clients[t].at == c.sys.head { AnswerNowOk(c, a.env, t); }
      else { DeferredAnswerOk(c, a, p, t); }
    }
  }

  lemma DeferredAnswerOk(c: Cached, a: Action, p: Path, t: Tid)
    requires CachedInv(c, p) && Possible(c, Step(a)) && (a.Serve? || a.PollCreation? || a.PollData?)
    requires WaitsToRead(c.sys, t) && ReadOf(c.sys, t).path == p && (a.Serve? ==> c.sys.clients[t].at != c.sys.head)
    ensures AnswerOk(Next(c, Step(a)), p, t)
  {
    var s, u := c.sys.server, Do(c.sys, a).server;
    ServerStepWakes(c.sys, a, t);
    if SamePlaces(s, u, t) {
      if At(u, t, Answered(0)) {
        assert At(s, t, Answered(0)) && ReaderOk(c, p, t);
        ServerIsReliable(c, a, p);
        StaysJustified(c.rules, WorldNow(c), WorldNow(Next(c, Step(a))), p, s.responses[t][0]);
      }
    } else {
      var place := WokenFrom(s, a.env, u, t);
      PlacedIsHandled(c.sys, t, place);
      assert place == AwaitsData(p);
      assert u.responses[t][0] == ReleaseValue(c.fs, p);
    }
  }

  // ---- Every event keeps it ----

  lemma FilesKeep(c: Cached, gs: FileSystem, p: Path)
    requires CachedInv(c, p) && Reliable(c.rules, WorldNow(c), WorldNow(Next(c, Files(gs))), p)
    ensures CachedInv(Next(c, Files(gs)), p)
  {
    var d := Next(c, Files(gs));
    forall t ensures ReaderOk(d, p, t) {
      assert ReaderOk(c, p, t);
      if t in c.readers { CacheStaysOk(c.rules, WorldNow(c), WorldNow(d), c.readers[t].cache, p); }
      if WaitsToRead(c.sys, t) && At(c.sys.server, t, Answered(0)) {
        assert AnswerOk(c, p, t);
      }
    }
  }

  lemma ServerStepKeeps(c: Cached, a: Action, p: Path)
    requires CachedInv(c, p) && Possible(c, Step(a)) && (a.Serve? || a.PollCreation? || a.PollData?)
    ensures CachedInv(Next(c, Step(a)), p)
  {
    var d := Next(c, Step(a));
    StepKeeps(c.sys, a);
    ServerIsReliable(c, a, p);
    forall t ensures ReaderOk(d, p, t) {
      assert ReaderOk(c, p, t);
      if t in c.readers { CacheStaysOk(c.rules, WorldNow(c), WorldNow(d), c.readers[t].cache, p); }
      AnswerStaysOk(c, a, p, t);
    }
  }

  lemma ReceivePasses(c: Cached, t: Tid, x: Tid, p: Path)
    requires CachedInv(c, p) && Possible(c, Step(Receive(t)))
    ensures ReaderOk(Next(c, Step(Receive(t))), p, x)
  {
    assert ReaderOk(c, p, x) && ClientOk(c.sys, x);
  }

  lemma SendPasses(c: Cached, r: Request, x: Tid, p: Path)
    requires CachedInv(c, p) && Possible(c, Step(Send(r)))
    ensures ReaderOk(Next(c, Step(Send(r))), p, x)
  {
    assert ReaderOk(c, p, x) && ClientOk(c.sys, x);
  }

  /** Other steps leave locations, tokens and files alone, and nobody starts waiting to read. */
  lemma ClientStepPasses(c: Cached, a: Action, t: Tid, p: Path)
    requires CachedInv(c, p) && Possible(c, Step(a)) && !(a.Serve? || a.PollCreation? || a.PollData?)
    ensures ReaderOk(Next(c, Step(a)), p, t)
  {
    if a.Receive? { ReceivePasses(c, a.tid, t, p); }
    else if a.Send? { SendPasses(c, a.request, t, p); }
    else { assert ReaderOk(c, p, t) && ClientOk(c.sys, t); }
  }

  lemma ClientStepKeepsReaders(c: Cached, a: Action, p: Path)
    requires CachedInv(c, p) && Possible(c, Step(a)) && !(a.Serve? || a.PollCreation? || a.PollData?)
    ensures CachedInv(Next(c, Step(a)), p)
  {
    StepKeeps(c.sys, a);
    forall t ensures ReaderOk(Next(c, Step(a)), p, t) { ClientStepPasses(c, a, t, p); }
  }

  lemma SkipKeeps(c: Cached, e: Event, p: Path)
    requires CachedInv(c, p) && e.Skip? && Possible(c, e)
    ensures CachedInv(Next(c, e), p)
  {
    var d := Next(c, e);
    assert ReaderOk(c, p, e.tid);
    EnterKeepsOk(c.rules, WorldNow(c), c.readers[e.tid].cache, e.path, e.fd, p);
    forall t ensures ReaderOk(d, p, t) {
      assert ReaderOk(c, p, t);
    }
  }

  lemma AskingReader(c: Cached, e: Event, p: Path)
    requires CachedInv(c, p) && e.Ask? && Possible(c, e)
    ensures ReaderOk(Next(c, e), p, e.tid)
  {
    assert ReaderOk(c, p, e.tid) && Placed(c.sys, e.tid);
    EnterKeepsOk(c.rules, WorldNow(c), c.readers[e.tid].cache, e.path, e.fd, p);
    assert !At(c.sys.server, e.tid, Answered(0));
  }

  lemma AskPassesOthers(c: Cached, e: Event, t: Tid, p: Path)
    requires CachedInv(c, p) && e.Ask? && Possible(c, e) && t != e.tid
    ensures ReaderOk(Next(c, e), p, t)
  {
    assert ReaderOk(c, p, t) && ClientOk(c.sys, t);
  }

  lemma AskKeeps(c: Cached, e: Event, p: Path)
    requires CachedInv(c, p) && e.Ask? && Possible(c, e)
    ensures CachedInv(Next(c, e), p)
  {
    SendKeeps(c.sys, Read(e.path, e.tid, e.fd, e.end));
    forall t ensures ReaderOk(Next(c, e), p, t) {
      if t == e.tid { AskingReader(c, e, p); } else { AskPassesOthers(c, e, t, p); }
    }
  }

  lemma ToldKeeps(c: Cached, t: Tid, p: Path)
    requires CachedInv(c, p) && Possible(c, Told(t))
    ensures CachedInv(Next(c, Told(t)), p)
  {
    var d := Next(c, Told(t));
    ReceiveKeeps(c.sys, t);
    assert ReaderOk(c, p, t) && At(c.sys.server, t, Answered(0));
    StoreKeepsOk(c.rules, WorldNow(c), c.readers[t].cache, c.readers[t].key, c.sys.server.responses[t][0], p);
    forall x ensures ReaderOk(d, p, x) {
      assert ReaderOk(c, p, x);
    }
  }

  lemma EventKeeps(c: Cached, e: Event, p: Path)
    requires CachedInv(c, p) && Possible(c, e)
    requires e.Files? ==> Reliable(c.rules, WorldNow(c), WorldNow(Next(c, e)), p)
    ensures CachedInv(Next(c, e), p)
  {
    match e
    case Files(gs) => FilesKeep(c, gs, p);
    case Step(a) =>
      if a.Serve? || a.PollCreation? || a.PollData? { ServerStepKeeps(c, a, p); }
      else { ClientStepKeepsReaders(c, a, p); }
    case Skip(_, _, _, _) => SkipKeeps(c, e, p);
    case Ask(_, _, _, _) => AskKeeps(c, e, p);
    case Told(t) => ToldKeeps(c, t, p);
  }

  lemma {:induction false} HistoryKeeps(c: Cached, run: seq<Event>, p: Path)
    requires CachedInv(c, p) && History(c, run) && Dependable(c, run, p)
    ensures CachedInv(Outcome(c, run), p)
    decreases |run|
  {
    if run != [] {
      EventKeeps(c, run[0], p);
      HistoryKeeps(Next(c, run[0]), run[1..], p);
    }
  }

  lemma EventIsReliable(c: Cached, e: Event, p: Path)
    requires Possible(c, e) && (e.Files? ==> Reliable(c.rules, WorldNow(c), WorldNow(Next(c, e)), p))
    ensures Reliable(c.rules, WorldNow(c), WorldNow(Next(c, e)), p)
  {
    match e
    case Step(a) => ServerIsReliable(c, a, p);
    case Ask(t, path, end, fd) => ServerIsReliable(c, Send(Read(path, t, fd, end)), p);
    case Told(t) => ServerIsReliable(c, Receive(t), p);
    case _ =>
  }

  lemma {:induction false} JustifiedForever(c: Cached, run: seq<Event>, p: Path, x: U64)
    requires History(c, run) && Dependable(c, run, p) && Justified(c.rules, WorldNow(c), p, x)
    ensures Outcome(c, run).rules == c.rules && Justified(c.rules, WorldNow(Outcome(c, run)), p, x)
    decreases |run|
  {
    if run != [] {
      var d := Next(c, run[0]);
      EventIsReliable(c, run[0], p);
      StaysJustified(c.rules, WorldNow(c), WorldNow(d), p, x);
      JustifiedForever(d, run[1..], p, x);
    }
  }

  /**
   * After any history that takes nothing back that was granted of the path,
   * when the cache of a thread lets a read through, the server would answer it
   * at once whenever it gets to it: at that moment, and after any such
   * continuation.
   */
  lemma CachedReadsRefineUncached(
    first: Cached, run: seq<Event>, t: Tid, path: Path, end: U64, fd: Int32, more: seq<Event>, order: seq<Path>)
    requires Init(first.sys) && first.readers == map[] && History(first, run) && Dependable(first, run, path)
    requires Possible(Outcome(first, run), Skip(t, path, end, fd))
    requires var c := Outcome(first, run);
             History(c, more) && Dependable(c, more, path) && !IsDirectory(Outcome(c, more).fs, path)
    ensures var d := Outcome(Outcome(first, run), more);
            ReadAnswer(d.sys.server, Env(d.rules, d.fs, order), t, path, end).Some?
  {
    InitInv(first.sys);
    HistoryKeeps(first, run, path);
    var c := Outcome(first, run);
    assert ReaderOk(c, path, t);
    SkippingIsJustified(c.rules, WorldNow(c), c.readers[t].cache, path, end, fd);
    JustifiedForever(c, more, path, end);
    var d := Outcome(c, more);
    JustifiedIsAnswered(d.sys.server, Env(d.rules, d.fs, order), t, path, end);
  }

  // ---- One read, from the question to the answer ----

  /** While a thread waits for the answer to a read, no event but that answer touches its cache. */
  lemma WaitingReaderKept(c: Cached, e: Event, t: Tid)
    requires Inv(c.sys) && Possible(c, e) && WaitsToRead(c.sys, t) && t in c.readers && e != Told(t)
    ensures var d := Next(c, e);
            && Inv(d.sys) && t in d.readers && d.readers[t] == c.readers[t]
            && WaitsToRead(d.sys, t) && ReadOf(d.sys, t) == ReadOf(c.sys, t)
  {
    assert ClientOk(c.sys, t);
    match e
    case Step(a) => StepKeeps(c.sys, a);
    case Ask(x, path, end, fd) => SendKeeps(c.sys, Read(path, x, fd, end));
    case Told(x) => ReceiveKeeps(c.sys, x);
    case _ =>
  }

  lemma {:induction false} WaitingReaderKeptAlong(c: Cached, run: seq<Event>, t: Tid)
    requires Inv(c.sys) && History(c, run) && WaitsToRead(c.sys, t) && t in c.readers
    requires forall i | 0 <= i < |run| :: run[i] != Told(t)
    ensures var d := Outcome(c, run);
            && t in d.readers && d.readers[t] == c.readers[t]
            && WaitsToRead(d.sys, t) && ReadOf(d.sys, t) == ReadOf(c.sys, t)
    decreases |run|
  {
    if run != [] {
      WaitingReaderKept(c, run[0], t);
      WaitingReaderKeptAlong(Next(c, run[0]), run[1..], t);
    }
  }

  /**
   * A read that asks queues exactly itself, and whatever happens until it is
   * told, its cache ends as the method leaves it for that answer.
   */
  lemma AskedReadEndsAsTheMethod(c: Cached, t: Tid, path: Path, end: U64, fd: Int32, more: seq<Event>)
    requires Inv(c.sys) && Possible(c, Ask(t, path, end, fd)) && History(Next(c, Ask(t, path, end, fd)), more)
    requires forall i | 0 <= i < |more| :: more[i] != Told(t)
    requires Possible(Outcome(Next(c, Ask(t, path, end, fd)), more), Told(t))
    ensures var d, before := Outcome(Next(c, Ask(t, path, end, fd)), more), c.readers[t].cache;
            && Next(c, Ask(t, path, end, fd)).sys.log == c.sys.log + [Read(path, t, fd, end)]
            && ReadOf(d.sys, t) == Read(path, t, fd, end)
            && Next(d, Told(t)).readers[t].cache
               == Store(Enter(before, path, fd), KeyLeft(before, path, fd), d.sys.server.responses[t][0])
  {
    var asked := Next(c, Ask(t, path, end, fd));
    SendKeeps(c.sys, Read(path, t, fd, end));
    WaitingReaderKeptAlong(asked, more, t);
  }

  /** A thread that starts knows nothing of any file, whoever had its id before. */
  lemma NewThreadsAskFirst(c: Cached, t: Tid, path: Path, end: U64, fd: Int32)
    requires Possible(c, Step(Wake(t))) && end > 0
    ensures t in Next(c, Step(Wake(t))).readers && Asks(Next(c, Step(Wake(t))).readers[t].cache, path, end, fd)
  {
  }

  /** A read that is let through leaves the server alone, and its cache as the method leaves it. */
  lemma SkippedReadEndsAsTheMethod(c: Cached, t: Tid, path: Path, end: U64, fd: Int32)
    requires Possible(c, Skip(t, path, end, fd))
    ensures var d := Next(c, Skip(t, path, end, fd));
            d.sys == c.sys && d.fs == c.fs && d.readers[t].cache == Enter(c.readers[t].cache, path, fd)
  {
  }
}
