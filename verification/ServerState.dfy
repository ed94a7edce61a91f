/**
 * The state of the server as one value, and what every request handler and
 * the polling monitor do to it.
 */
module ServerState {
  import opened Types
  import opened Requests
  import opened CommitRules

  /** `match_globs` and `fileToBeHandled`, fixed for a run. */
  datatype Rules = Rules(matches: (Path, Path) -> bool, handled: Path -> bool)

  /** What a step finds outside the server: the files, and the order in which it walks the locations. */
  datatype Env = Env(rules: Rules, fs: FileSystem, order: seq<Path>)

  type Responses = map<Tid, seq<U64>>

  datatype State = State(
    responses: Responses,
    appNames: map<Tid, string>,
    produced: map<Tid, seq<Path>>,
    awaitingCreation: map<Path, seq<Tid>>,
    awaitingData: map<Path, map<Tid, U64>>,
    locations: Locations,
    tokens: map<Path, nat>)

  /** `CAPIO_DEFAULT_APP_NAME`. */
  const DEFAULT_APP_NAME: string := "default_app"

  function WorldOf(s: State, env: Env): World {
    World(s.locations, s.tokens, env.fs)
  }

  // ---- Client manager ----

  function AppName(names: map<Tid, string>, tid: Tid): string {
    if tid in names then names[tid] else ""
  }

  function Reply(r: Responses, tid: Tid, offset: U64): Responses {
    if tid in r then r[tid := r[tid] + [offset]] else r
  }

  function ReplyEach(r: Responses, tids: seq<Tid>, offset: U64): Responses {
    if tids == [] then r else Reply(ReplyEach(r, tids[..|tids| - 1], offset), tids[|tids| - 1], offset)
  }

  function ReplySet(r: Responses, tids: set<Tid>, offset: U64): Responses {
    map t | t in r :: if t in tids then r[t] + [offset] else r[t]
  }

  function AddNew<V>(m: map<Tid, V>, tid: Tid, v: V): map<Tid, V> {
    if tid in m then m else m[tid := v]
  }

  function Register(s: State, tid: Tid, app: string): State {
    s.(responses := AddNew(s.responses, tid, []),
       appNames := AddNew(s.appNames, tid, app),
       produced := AddNew(s.produced, tid, []))
  }

  /** The name of a removed client stays behind. */
  function Remove(s: State, tid: Tid): State {
    s.(responses := s.responses - {tid}, produced := s.produced - {tid})
  }

  // ---- CAPIO-CL engine ----

  /** The first key in walking order whose glob matches. */
  function FirstMatch(l: Locations, rules: Rules, order: seq<Path>, path: Path): Option<Path> {
    if order == [] then None
    else if order[0] in l && rules.matches(order[0], path) then Some(order[0])
    else FirstMatch(l, rules, order[1..], path)
  }

  function ProducersFor(l: Locations, rules: Rules, order: seq<Path>, path: Path): seq<string> {
    if path in l then l[path].producers
    else
      match FirstMatch(l, rules, order, path)
      case Some(k) => if k in l then l[k].producers else []
      case None => []
  }

  function IsProducer(s: State, env: Env, path: Path, tid: Tid): bool {
    AppName(s.appNames, tid) in ProducersFor(s.locations, env.rules, env.order, path)
  }

  /** Directory entries pass their rules on to the paths their glob matches. */
  predicate Bequeaths(l: Locations, rules: Rules, k: Path, path: Path) {
    k in l && rules.matches(k, path) && !l[k].isFile
  }

  /** The longest such key; the earliest in walking order among the longest. */
  function LongestMatch(l: Locations, rules: Rules, order: seq<Path>, path: Path): Option<Path> {
    if order == [] then None
    else
      var k, best := order[|order| - 1], LongestMatch(l, rules, order[..|order| - 1], path);
      if Bequeaths(l, rules, k, path) && |k| > (if best.Some? then |best.value| else 0) then Some(k) else best
  }

  function NewEntry(l: Locations, rules: Rules, order: seq<Path>, path: Path): Entry {
    match LongestMatch(l, rules, order, path)
    case Some(k) => Entry([], CommitRuleOf(l, k), FireRuleOf(l, k), true, -1, -1, [])
    case None => Entry([], OnTermination, Update, true, -1, -1, [])
  }

  function NewFile(l: Locations, rules: Rules, order: seq<Path>, path: Path): Locations {
    if path in l then l else l[path := NewEntry(l, rules, order, path)]
  }

  predicate IsBlank(c: char) {
    c == ' ' || c == '\t' || c == '\n' || c == '\r' || c == '\U{000B}' || c == '\U{000C}'
  }

  function StripBlanks(s: string): string {
    if s == [] then [] else (if IsBlank(s[0]) then [] else [s[0]]) + StripBlanks(s[1..])
  }

  function AddProducer(l: Locations, rules: Rules, order: seq<Path>, path: Path, producer: string): Locations {
    var m := NewFile(l, rules, order, path);
    m[path := m[path].(producers := m[path].producers + [StripBlanks(producer)])]
  }

  // ---- File manager ----

  function AddAwaitingCreation(s: State, path: Path, tid: Tid): State {
    var waiting := if path in s.awaitingCreation then s.awaitingCreation[path] else [];
    s.(awaitingCreation := s.awaitingCreation[path := waiting + [tid]])
  }

  function UnlockCreation(s: State, path: Path): State {
    if path in s.awaitingCreation then
      s.(responses := ReplyEach(s.responses, s.awaitingCreation[path], 1),
         awaitingCreation := s.awaitingCreation - {path})
    else s
  }

  /** `emplace` keeps the size of a thread that already waits. */
  function AddAwaitingData(s: State, path: Path, tid: Tid, size: U64): State {
    var waiting := if path in s.awaitingData then s.awaitingData[path] else map[];
    s.(awaitingData := s.awaitingData[path := AddNew(waiting, tid, size)])
  }

  /** A thread id converted to an unsigned 64-bit integer. */
  function TidAsU64(tid: Tid): U64 {
    if tid < 0 then tid + TWO_64 else tid
  }

  /** The size the deferred check compares with: the thread id, not the size waited for, is its other side. */
  function SizeToCheck(fs: FileSystem, path: Path): U64 {
    if IsDirectory(fs, path) then ULLONG_MAX else FileSize(fs, path)
  }

  ghost predicate Releasable(s: State, env: Env, path: Path, tid: Tid) {
    || Committed(WorldOf(s, env), path)
    || IsProducer(s, env, path, tid)
    || (TidAsU64(tid) >= SizeToCheck(env.fs, path) && FireRuleOf(s.locations, path) == NoUpdate)
  }

  /** A released waiter is told the size of the file, and the greatest size for a directory. */
  function ReleaseValue(fs: FileSystem, path: Path): U64 {
    SizeToCheck(fs, path)
  }

  ghost function Released(s: State, env: Env, path: Path): set<Tid> {
    if path in s.awaitingData then set t | t in s.awaitingData[path] && Releasable(s, env, path, t) else {}
  }

  function SetWaiters(data: map<Path, map<Tid, U64>>, path: Path, waiting: map<Tid, U64>): map<Path, map<Tid, U64>> {
    if waiting == map[] then data - {path} else data[path := waiting]
  }

  ghost function UnlockData(s: State, env: Env, path: Path): State {
    if path in s.awaitingData then
      var released := Released(s, env, path);
      s.(responses := ReplySet(s.responses, released, ReleaseValue(env.fs, path)),
         awaitingData := SetWaiters(s.awaitingData, path, s.awaitingData[path] - released))
    else s
  }

  function CreateToken(s: State, path: Path): State {
    if path in s.tokens then s else s.(tokens := s.tokens[path := 0])
  }

  ghost function SetCommitted(s: State, env: Env, path: Path): State {
    UnlockCreation(UnlockData(CreateToken(s, path), env, path), path)
  }

  ghost function SetAllCommitted(s: State, env: Env, paths: seq<Path>): State {
    if paths == [] then s
    else SetCommitted(SetAllCommitted(s, env, paths[..|paths| - 1]), env, paths[|paths| - 1])
  }

  function IncreaseCloseCount(s: State, path: Path): State {
    s.(tokens := s.tokens[path := (if path in s.tokens then s.tokens[path] else 0) + 1])
  }

  // ---- Handlers ----

  /** A close that counts: a handled path with rule on_close, closed by one of its producers. */
  predicate AcceptedClose(s: State, env: Env, tid: Tid, path: Path) {
    && env.rules.handled(path)
    && CommitRuleOf(s.locations, path) == OnClose
    && IsProducer(s, env, path, tid)
  }

  ghost function HandleClose(s: State, env: Env, tid: Tid, path: Path): State {
    if AcceptedClose(s, env, tid, path) then IncreaseCloseCount(SetCommitted(s, env, path), path) else s
  }

  /** When a consent is given at once. */
  ghost predicate ConsentNow(s: State, env: Env, tid: Tid, path: Path) {
    || !env.rules.handled(path)
    || IsProducer(s, env, path, tid)
    || (path in env.fs && (Committed(WorldOf(s, env), path) || FireRuleOf(s.locations, path) == NoUpdate))
  }

  ghost function HandleConsent(s: State, env: Env, tid: Tid, path: Path): State {
    if ConsentNow(s, env, tid, path) then s.(responses := Reply(s.responses, tid, 1))
    else AddAwaitingData(s, path, tid, 0)
  }

  function HandleCreate(s: State, env: Env, tid: Tid, path: Path): State {
    var t := UnlockCreation(s, path);
    t.(locations := AddProducer(t.locations, env.rules, env.order, path, AppName(t.appNames, tid)))
  }

  function HandleOpen(s: State, env: Env, tid: Tid, path: Path): State {
    if path in env.fs || IsProducer(s, env, path, tid) then s.(responses := Reply(s.responses, tid, 1))
    else AddAwaitingCreation(s, path, tid)
  }

  /** The answer a read gets at once, if it gets one. */
  ghost function ReadAnswer(s: State, env: Env, tid: Tid, path: Path, end: U64): Option<U64> {
    if !env.rules.handled(path) then Some(1)
    else if Committed(WorldOf(s, env), path) then Some(ULLONG_MAX)
    else if FileSize(env.fs, path) >= end || IsProducer(s, env, path, tid) then Some(FileSize(env.fs, path))
    else None
  }

  ghost function HandleRead(s: State, env: Env, tid: Tid, path: Path, end: U64): State {
    match ReadAnswer(s, env, tid, path, end)
    case Some(v) => s.(responses := Reply(s.responses, tid, v))
    case None => AddAwaitingData(s, path, tid, end)
  }

  ghost function HandleExit(s: State, env: Env, tid: Tid): State {
    Remove(SetAllCommitted(s, env, if tid in s.produced then s.produced[tid] else []), tid)
  }

  ghost function HandleWrite(s: State, env: Env, path: Path): State {
    if env.rules.handled(path) then UnlockData(s, env, path) else s
  }

  ghost function Handle(s: State, env: Env, r: Request): State {
    match r
    case Consent(tid, path, _) => HandleConsent(s, env, tid, path)
    case Close(tid, path) => HandleClose(s, env, tid, path)
    case Create(tid, _, path) => HandleCreate(s, env, tid, path)
    case ExitGroup(tid) => HandleExit(s, env, tid)
    case HandshakeNamed(tid, _, app) => Register(s, tid, app)
    case HandshakeAnonymous(tid, _) => Register(s, tid, DEFAULT_APP_NAME)
    case Open(tid, _, path) => HandleOpen(s, env, tid, path)
    case Read(path, tid, _, end) => HandleRead(s, env, tid, path, end)
    case Rename(_, _, newPath) => UnlockCreation(s, newPath)
    case Write(_, _, path, _) => HandleWrite(s, env, path)
  }

  // ---- What the handlers look up with `at` ----

  /** Every waiting thread has a response queue and a name. */
  ghost predicate WaitersKnown(s: State) {
    && (forall p, i | p in s.awaitingCreation && 0 <= i < |s.awaitingCreation[p]| ::
          s.awaitingCreation[p][i] in s.responses)
    && (forall p, t | p in s.awaitingData && t in s.awaitingData[p] :: t in s.responses && t in s.appNames)
  }

  predicate Known(s: State, tid: Tid) {
    tid in s.responses && tid in s.appNames && tid in s.produced
  }

  /** The requests whose handlers look up the sender. */
  predicate LooksUpSender(r: Request) {
    !r.Handshake() && !r.Rename? && !r.Write?
  }

  /** The walking order lists the locations. */
  ghost predicate Walks(order: seq<Path>, l: Locations) {
    forall p :: p in order <==> p in l
  }

  // ---- The polling monitor ----

  ghost function MonitorCreation(s: State, env: Env, path: Path): State {
    if path in env.fs then UnlockCreation(s, path) else s
  }

  ghost function MonitorData(s: State, env: Env, path: Path): State {
    if path in env.fs then UnlockData(s, env, path) else s
  }
}
