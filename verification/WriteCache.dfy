/**
 * The client's write cache: consecutive writes through one descriptor are
 * added up and sent as one request.
 *
 * A written byte is a unit (path, descriptor); what a run of calls gives, what
 * the sent lines carry and what the cache holds are sequences of units, so one
 * equation says that nothing is lost, nothing is invented and the order is kept.
 */
module WriteCache {
  import opened Types
  import opened Requests

  type Fd = Int32

  /** The arguments of one sprintf. The cache passes its own line in the wrong slots. */
  datatype Line =
    | WriteLine(tid: int, fd: int, path: Path, count: int)
    | Plain(request: Request)

  datatype Unit = Unit(path: Path, fd: int)

  /** `fd` is -1 when the cache is empty; the path is kept from the last write. */
  datatype Cache = Cache(fd: int, size: int, path: Path)

  const EMPTY: Cache := Cache(-1, 0, "")

  function Repeat(u: Unit, n: nat): (us: seq<Unit>)
    ensures |us| == n
  {
    if n == 0 then [] else [u] + Repeat(u, n - 1)
  }

  lemma {:induction false} RepeatAdds(u: Unit, m: nat, n: nat)
    ensures Repeat(u, m) + Repeat(u, n) == Repeat(u, m + n)
  {
    if m > 0 { RepeatAdds(u, m - 1, n); }
  }

  /** The first number a `long long` cannot hold; what a sum that reaches it does is undefined. */
  const LONG_LONG_END: int := 0x8000_0000_0000_0000

  /** A `long long` compared with an unsigned limit. */
  function AsUnsigned(size: int): int {
    if size < 0 then size + TWO_64 else size
  }

  /** `_write_request(tid, current_fd, current_size)`, whose parameters are (count, tid, fd). */
  function CacheLine(c: Cache, tid: Tid): Line {
    WriteLine(c.fd, c.size, c.path, tid)
  }

  function FlushLines(c: Cache, tid: Tid): seq<Line> {
    if c.fd != -1 && c.size > 0 then [CacheLine(c, tid)] else []
  }

  function Flushed(c: Cache): Cache {
    c.(fd := -1, size := 0)
  }

  predicate Changes(c: Cache, path: Path, fd: Fd) {
    fd != c.fd || path != c.path
  }

  /** The entry the count goes to, before it is added. */
  function Selected(c: Cache, path: Path, fd: Fd): Cache {
    if Changes(c, path, fd) then Cache(fd, 0, path) else c
  }

  function SelectLines(c: Cache, path: Path, tid: Tid, fd: Fd): seq<Line> {
    if Changes(c, path, fd) then FlushLines(c, tid) else []
  }

  predicate Exceeds(c: Cache, max: U64) {
    AsUnsigned(c.size) > max
  }

  function Spilled(c: Cache, max: U64): Cache {
    if Exceeds(c, max) then Flushed(c) else c
  }

  function SpillLines(c: Cache, max: U64, tid: Tid): seq<Line> {
    if Exceeds(c, max) then FlushLines(c, tid) else []
  }

  function Added(c: Cache, count: int): Cache {
    c.(size := c.size + count)
  }

  function AfterWrite(c: Cache, max: U64, path: Path, fd: Fd, count: int): Cache {
    Spilled(Added(Selected(c, path, fd), count), max)
  }

  function WriteLines(c: Cache, max: U64, path: Path, tid: Tid, fd: Fd, count: int): seq<Line> {
    SelectLines(c, path, tid, fd) + SpillLines(Added(Selected(c, path, fd), count), max, tid)
  }

  // ---- Units ----

  /** The amount travels in the slot printed second, the descriptor in the one printed first. */
  function Carried(l: Line): seq<Unit> {
    match l
    case WriteLine(fd, size, path, _) => if size > 0 then Repeat(Unit(path, fd), size) else []
    case Plain(_) => []
  }

  function CarriedAll(ls: seq<Line>): seq<Unit> {
    if ls == [] then [] else CarriedAll(ls[..|ls| - 1]) + Carried(ls[|ls| - 1])
  }

  function Held(c: Cache): seq<Unit> {
    if c.fd != -1 && c.size > 0 then Repeat(Unit(c.path, c.fd), c.size) else []
  }

  predicate Sound(c: Cache, max: U64) {
    0 <= c.size <= max && (c.fd == -1 ==> c.size == 0)
  }

  lemma {:induction false} CarriedConcat(a: seq<Line>, b: seq<Line>)
    ensures CarriedAll(a + b) == CarriedAll(a) + CarriedAll(b)
  {
    if b == [] {
      assert a + b == a;
    } else {
      var front, last := b[..|b| - 1], b[|b| - 1];
      assert (a + b)[..|a + b| - 1] == a + front && (a + b)[|a + b| - 1] == last;
      CarriedConcat(a, front);
      assert CarriedAll(a) + CarriedAll(front) + Carried(last) == CarriedAll(a) + (CarriedAll(front) + Carried(last));
    }
  }

  lemma FlushCarries(c: Cache, tid: Tid)
    ensures CarriedAll(FlushLines(c, tid)) == Held(c)
    ensures Held(Flushed(c)) == []
  {
    var ls := FlushLines(c, tid);
    if ls != [] {
      assert ls[..0] == [] && CarriedAll(ls[..0]) == [];
    }
  }

  lemma Regroup(a: seq<Unit>, b: seq<Unit>, held: seq<Unit>, holds: seq<Unit>, given: seq<Unit>, more: seq<Unit>)
    requires a + held == given && b + holds == held + more
    ensures a + b + holds == given + more
  {
    assert a + b + holds == a + (b + holds) == a + (held + more) == a + held + more;
  }

  /** Selecting the entry of a write sends what belongs to another entry. */
  lemma SelectConserves(c: Cache, path: Path, tid: Tid, fd: Fd)
    requires c.size >= 0
    ensures CarriedAll(SelectLines(c, path, tid, fd)) + Held(Selected(c, path, fd)) == Held(c)
  {
    FlushCarries(c, tid);
  }

  lemma AddConserves(c: Cache, count: nat)
    requires c.size >= 0 && c.fd != -1
    ensures Held(Added(c, count)) == Held(c) + Repeat(Unit(c.path, c.fd), count)
  {
    RepeatAdds(Unit(c.path, c.fd), c.size, count);
  }

  lemma SpillConserves(c: Cache, max: U64, tid: Tid)
    ensures CarriedAll(SpillLines(c, max, tid)) + Held(Spilled(c, max)) == Held(c)
  {
    FlushCarries(c, tid);
  }

  /** One write: what is sent now and held afterwards is what was held before and the new bytes. */
  lemma WriteConserves(c: Cache, max: U64, path: Path, tid: Tid, fd: Fd, count: nat)
    requires Sound(c, max) && fd != -1 && Selected(c, path, fd).size + count < LONG_LONG_END
    ensures CarriedAll(WriteLines(c, max, path, tid, fd, count)) + Held(AfterWrite(c, max, path, fd, count))
         == Held(c) + Repeat(Unit(path, fd), count)
  {
    var d := Selected(c, path, fd);
    var e := Added(d, count);
    SelectConserves(c, path, tid, fd);
    AddConserves(d, count);
    SpillConserves(e, max, tid);
    CarriedConcat(SelectLines(c, path, tid, fd), SpillLines(e, max, tid));
    Regroup(CarriedAll(SelectLines(c, path, tid, fd)), CarriedAll(SpillLines(e, max, tid)),
            Held(d), Held(Spilled(e, max)), Held(c), Repeat(Unit(path, fd), count));
  }

  lemma WriteKeepsSound(c: Cache, max: U64, path: Path, fd: Fd, count: nat)
    requires Sound(c, max) && fd != -1 && Selected(c, path, fd).size + count < LONG_LONG_END
    ensures Sound(AfterWrite(c, max, path, fd, count), max)
  {
  }

  // ---- Runs of a client ----

  /** CLOSE, OPEN and EXIT flush first; the other requests do not. */
  datatype Event =
    | Put(path: Path, tid: Tid, fd: Fd, count: nat)
    | Send(request: Request)

  predicate Flushes(r: Request) { r.Close? || r.Open? || r.ExitGroup? }

  /** The descriptor is one, and the amount held and given stays in range. */
  predicate Fits(c: Cache, e: Event) {
    e.Put? ==> e.fd != -1 && Selected(c, e.path, e.fd).size + e.count < LONG_LONG_END
  }

  function NextCache(c: Cache, max: U64, e: Event): Cache {
    match e
    case Put(path, _, fd, count) => AfterWrite(c, max, path, fd, count)
    case Send(r) => if Flushes(r) then Flushed(c) else c
  }

  function NextLines(c: Cache, max: U64, e: Event): seq<Line> {
    match e
    case Put(path, tid, fd, count) => WriteLines(c, max, path, tid, fd, count)
    case Send(r) => (if Flushes(r) then FlushLines(c, r.tid) else []) + [Plain(r)]
  }

  function CacheAfter(run: seq<Event>, max: U64): Cache {
    if run == [] then EMPTY else NextCache(CacheAfter(run[..|run| - 1], max), max, run[|run| - 1])
  }

  function LinesOf(run: seq<Event>, max: U64): seq<Line> {
    if run == [] then []
    else
      LinesOf(run[..|run| - 1], max) + NextLines(CacheAfter(run[..|run| - 1], max), max, run[|run| - 1])
  }

  predicate RunFits(run: seq<Event>, max: U64) {
    run == [] || (RunFits(run[..|run| - 1], max) && Fits(CacheAfter(run[..|run| - 1], max), run[|run| - 1]))
  }

  lemma OneMoreEvent(run: seq<Event>, e: Event, max: U64)
    ensures CacheAfter(run + [e], max) == NextCache(CacheAfter(run, max), max, e)
    ensures LinesOf(run + [e], max) == LinesOf(run, max) + NextLines(CacheAfter(run, max), max, e)
  {
    assert (run + [e])[..|run + [e]| - 1] == run;
  }

  /** The bytes the application wrote, in order. */
  function Given(run: seq<Event>): seq<Unit> {
    if run == [] then []
    else
      var e := run[|run| - 1];
      Given(run[..|run| - 1]) + (if e.Put? then Repeat(Unit(e.path, e.fd), e.count) else [])
  }

  lemma StepConserves(c: Cache, max: U64, e: Event)
    requires Sound(c, max) && Fits(c, e)
    ensures Sound(NextCache(c, max, e), max)
    ensures CarriedAll(NextLines(c, max, e)) + Held(NextCache(c, max, e))
         == Held(c) + (if e.Put? then Repeat(Unit(e.path, e.fd), e.count) else [])
  {
    match e
    case Put(path, tid, fd, count) =>
      WriteConserves(c, max, path, tid, fd, count);
      WriteKeepsSound(c, max, path, fd, count);
    case Send(r) =>
      var first := if Flushes(r) then FlushLines(c, r.tid) else [];
      CarriedConcat(first, [Plain(r)]);
      assert [Plain(r)][..0] == [] && CarriedAll([Plain(r)]) == [];
      FlushCarries(c, r.tid);
  }

  /** Sent and held bytes are the given bytes, in order, and the cache stays within its limit. */
  lemma {:induction false} NothingLostOrReordered(run: seq<Event>, max: U64)
    requires RunFits(run, max)
    ensures Sound(CacheAfter(run, max), max)
    ensures CarriedAll(LinesOf(run, max)) + Held(CacheAfter(run, max)) == Given(run)
  {
    if run != [] {
      var before, e := run[..|run| - 1], run[|run| - 1];
      NothingLostOrReordered(before, max);
      StepConserves(CacheAfter(before, max), max, e);
      var lines, more := LinesOf(before, max), NextLines(CacheAfter(before, max), max, e);
      CarriedConcat(lines, more);
      Regroup(CarriedAll(lines), CarriedAll(more), Held(CacheAfter(before, max)), Held(CacheAfter(run, max)),
              Given(before), if e.Put? then Repeat(Unit(e.path, e.fd), e.count) else []);
    }
  }

  /** When CLOSE, OPEN or EXIT is queued, every byte written so far is queued before it. */
  lemma NothingHeldAtFlushingRequest(run: seq<Event>, max: U64, r: Request)
    requires RunFits(run, max) && (r.Close? || r.Open? || r.ExitGroup?)
    ensures var lines := LinesOf(run + [Send(r)], max);
            && |lines| > 0 && lines[|lines| - 1] == Plain(r)
            && CarriedAll(lines[..|lines| - 1]) == Given(run)
            && Held(CacheAfter(run + [Send(r)], max)) == []
  {
    var c := CacheAfter(run, max);
    OneMoreEvent(run, Send(r), max);
    FlushingLines(LinesOf(run, max), c, max, r);
    NothingLostOrReordered(run, max);
  }

  /** The lines before a flushing request carry what was sent and what was held. */
  lemma FlushingLines(sent: seq<Line>, c: Cache, max: U64, r: Request)
    requires Flushes(r)
    ensures var lines := sent + NextLines(c, max, Send(r));
            && |lines| > 0 && lines[|lines| - 1] == Plain(r)
            && CarriedAll(lines[..|lines| - 1]) == CarriedAll(sent) + Held(c)
            && Held(NextCache(c, max, Send(r))) == []
  {
    var before := sent + FlushLines(c, r.tid);
    assert sent + NextLines(c, max, Send(r)) == before + [Plain(r)];
    assert (before + [Plain(r)])[..|before|] == before;
    CarriedConcat(sent, FlushLines(c, r.tid));
    FlushCarries(c, r.tid);
  }

  /** The other requests go out alone, and what is held stays held. */
  lemma OtherRequestsDoNotFlush(run: seq<Event>, max: U64, r: Request)
    requires !r.Close? && !r.Open? && !r.ExitGroup?
    ensures LinesOf(run + [Send(r)], max) == LinesOf(run, max) + [Plain(r)]
    ensures CacheAfter(run + [Send(r)], max) == CacheAfter(run, max)
  {
    OneMoreEvent(run, Send(r), max);
  }

  /** A cache that was flushed sends nothing more, as when its destructor runs after EXIT. */
  lemma SecondFlushIsSilent(c: Cache, tid: Tid)
    ensures FlushLines(Flushed(c), tid) == []
  {
  }

  // ---- What the callers' order of arguments puts on the wire ----

  /** One call of `capio_write`. */
  datatype Call = Call(fd: Fd, count: Int32)

  /** It passes (path, count, tid, fd) where the cache expects (path, tid, fd, count). */
  function CapioWrite(path: Path, tid: Tid, call: Call): Event
    requires call.fd >= 0
  {
    Put(path, call.count, tid, call.fd)
  }

  predicate Proper(calls: seq<Call>) {
    forall i | 0 <= i < |calls| :: calls[i].fd >= 0
  }

  function CapioWrites(path: Path, tid: Tid, calls: seq<Call>): seq<Event>
    requires Proper(calls)
  {
    seq(|calls|, i requires 0 <= i < |calls| => CapioWrite(path, tid, calls[i]))
  }

  function SumOfFds(calls: seq<Call>): (sum: nat)
    requires Proper(calls)
  {
    if calls == [] then 0 else SumOfFds(calls[..|calls| - 1]) + calls[|calls| - 1].fd
  }

  function SumOfCounts(calls: seq<Call>): int {
    if calls == [] then 0 else SumOfCounts(calls[..|calls| - 1]) + calls[|calls| - 1].count
  }

  lemma CapioWritesOneMore(path: Path, tid: Tid, calls: seq<Call>)
    requires Proper(calls) && calls != []
    ensures var front, last := calls[..|calls| - 1], calls[|calls| - 1];
            CapioWrites(path, tid, calls) == CapioWrites(path, tid, front) + [CapioWrite(path, tid, last)]
  {
  }

  /** One call within the limit, on a fresh cache or after other calls of the thread for the path. */
  lemma CapioWriteIsHeld(path: Path, tid: Tid, c: Cache, call: Call, max: U64)
    requires call.fd >= 0 && tid >= 0 && (c == EMPTY || (c.fd == tid && c.path == path && c.size >= 0))
    requires c.size + call.fd <= max
    ensures NextLines(c, max, CapioWrite(path, tid, call)) == []
    ensures NextCache(c, max, CapioWrite(path, tid, call)) == Cache(tid, c.size + call.fd, path)
  {
  }

  /** The cache takes the thread id for the descriptor and adds up the descriptors. */
  lemma {:induction false} CapioWritesAddUpFds(path: Path, tid: Tid, calls: seq<Call>, max: U64)
    requires Proper(calls) && tid >= 0 && SumOfFds(calls) <= max && SumOfFds(calls) < LONG_LONG_END
    ensures LinesOf(CapioWrites(path, tid, calls), max) == []
    ensures CacheAfter(CapioWrites(path, tid, calls), max)
         == if calls == [] then EMPTY else Cache(tid, SumOfFds(calls), path)
  {
    if calls != [] {
      var front, last := calls[..|calls| - 1], calls[|calls| - 1];
      var before := CapioWrites(path, tid, front);
      CapioWritesAddUpFds(path, tid, front, max);
      CapioWritesOneMore(path, tid, calls);
      OneMoreEvent(before, CapioWrite(path, tid, last), max);
      CapioWriteIsHeld(path, tid, CacheAfter(before, max), last, max);
    }
  }

  /**
   * Both permutations together: after any writes of one thread to a path, the
   * line sent before CLOSE, OPEN or EXIT has the right thread id, the sum of
   * the descriptors in place of the descriptor, and the argument of the flush,
   * the thread id of that request, in place of the amount.
   */
  lemma CapioWritesOnTheWire(path: Path, tid: Tid, calls: seq<Call>, max: U64, r: Request)
    requires Proper(calls) && tid >= 0 && SumOfFds(calls) <= max && SumOfFds(calls) < LONG_LONG_END && Flushes(r)
    ensures LinesOf(CapioWrites(path, tid, calls) + [Send(r)], max)
         == (if SumOfFds(calls) > 0 then [WriteLine(tid, SumOfFds(calls), path, r.tid)] else []) + [Plain(r)]
  {
    CapioWritesAddUpFds(path, tid, calls, max);
    OneMoreEvent(CapioWrites(path, tid, calls), Send(r), max);
  }

  /** The line is the one meant, for writes through one descriptor, only if these numbers happen to agree. */
  lemma CapioWritesMeantExactly(path: Path, tid: Tid, calls: seq<Call>, max: U64, r: Request, fd: Fd)
    requires Proper(calls) && tid >= 0 && SumOfFds(calls) <= max && SumOfFds(calls) < LONG_LONG_END && Flushes(r)
    ensures LinesOf(CapioWrites(path, tid, calls) + [Send(r)], max)
            == [WriteLine(tid, fd, path, SumOfCounts(calls)), Plain(r)]
       <==> SumOfFds(calls) > 0 && fd == SumOfFds(calls) && SumOfCounts(calls) == r.tid
  {
    CapioWritesOnTheWire(path, tid, calls, max, r);
    var wire := LinesOf(CapioWrites(path, tid, calls) + [Send(r)], max);
    SameWire(wire, path, tid, SumOfFds(calls), r.tid, r, fd, SumOfCounts(calls));
  }

  lemma SameWire(wire: seq<Line>, path: Path, tid: Tid, sum: nat, last: int, r: Request, fd: int, total: int)
    requires wire == (if sum > 0 then [WriteLine(tid, sum, path, last)] else []) + [Plain(r)]
    ensures wire == [WriteLine(tid, fd, path, total), Plain(r)] <==> sum > 0 && fd == sum && total == last
  {
    assert sum > 0 ==> wire[0] == WriteLine(tid, sum, path, last);
    assert [WriteLine(tid, fd, path, total), Plain(r)][0] == WriteLine(tid, fd, path, total);
  }

  /** Thread 1000 writes 100 bytes through descriptor 4 and closes: 1000 bytes are reported. */
  lemma HundredBytesReportedAsThousand(path: Path)
    ensures LinesOf(CapioWrites(path, 1000, [Call(4, 100)]) + [Send(Close(1000, path))], 4096)
         == [WriteLine(1000, 4, path, 1000), Plain(Close(1000, path))]
  {
    var calls := [Call(4, 100)];
    assert calls[..0] == [] && SumOfFds(calls[..0]) == 0;
    assert SumOfFds(calls) == 4;
    CapioWritesOnTheWire(path, 1000, calls, 4096, Close(1000, path));
  }

  /** A write that exceeds the limit sends its own count in place of the amount. */
  lemma CapioWriteThatSpills(path: Path, tid: Tid, held: nat, call: Call, max: U64)
    requires call.fd >= 0 && held + call.fd < LONG_LONG_END
    ensures NextLines(Cache(tid, held, path), max, CapioWrite(path, tid, call))
         == if tid != -1 && held + call.fd > max then [WriteLine(tid, held + call.fd, path, call.count)] else []
  {
  }

  // ---- The cache and the senders in place ----

  class RequestBuffer {
    var lines: seq<Line>

    constructor ()
      ensures lines == []
    {
      lines := [];
    }

    method Write(l: Line)
      modifies this
      ensures lines == old(lines) + [l]
    {
      lines := lines + [l];
    }
  }

  class WriteRequestCache {
    var currentFd: int
    var currentSize: int
    var currentPath: Path
    const maxSize: U64
    const bufRequests: RequestBuffer

    ghost function State(): Cache
      reads this
    {
      Cache(currentFd, currentSize, currentPath)
    }

    constructor (maxSize: U64, bufRequests: RequestBuffer)
      ensures State() == EMPTY && this.maxSize == maxSize && this.bufRequests == bufRequests
    {
      currentFd, currentSize, currentPath := -1, 0, "";
      this.maxSize, this.bufRequests := maxSize, bufRequests;
    }

    method WriteLineOut(count: int, tid: int, fd: int)
      modifies bufRequests
      ensures bufRequests.lines == old(bufRequests.lines) + [WriteLine(tid, fd, currentPath, count)]
    {
      bufRequests.Write(WriteLine(tid, fd, currentPath, count));
    }

    method Flush(tid: Tid)
      modifies this, bufRequests
      ensures State() == Flushed(old(State()))
      ensures bufRequests.lines == old(bufRequests.lines) + FlushLines(old(State()), tid)
    {
      if currentFd != -1 && currentSize > 0 {
        WriteLineOut(tid, currentFd, currentSize);
      }
      currentFd := -1;
      currentSize := 0;
    }

    method WriteRequest(path: Path, tid: Tid, fd: Fd, count: int)
      modifies this, bufRequests
      ensures State() == AfterWrite(old(State()), maxSize, path, fd, count)
      ensures bufRequests.lines == old(bufRequests.lines) + WriteLines(old(State()), maxSize, path, tid, fd, count)
    {
      if fd != currentFd || path != currentPath {
        Flush(tid);
        currentPath := path;
        currentFd := fd;
      }
      currentSize := currentSize + count;
      if AsUnsigned(currentSize) > maxSize {
        Flush(tid);
      }
    }

    /** `close_request`, `open_request` and `exit_group_request`, up to the wait for an answer. */
    method FlushAndSend(r: Request)
      requires Flushes(r)
      modifies this, bufRequests
      ensures State() == NextCache(old(State()), maxSize, Send(r))
      ensures bufRequests.lines == old(bufRequests.lines) + NextLines(old(State()), maxSize, Send(r))
    {
      Flush(r.tid);
      bufRequests.Write(Plain(r));
    }
  }
}
