/**
 * The shared-memory ring queue as a protocol run by any number of processes:
 * wait on a counting semaphore, lock, copy, advance the index, post the other
 * semaphore, unlock. The post comes before the unlock.
 *
 * `Mutex` is the request and response queue, where every process may read and
 * write; `NoLock` is the single-producer single-consumer queue.
 */
module QueueProtocol {
  import opened Types
  import opened Modular

  type Pid = nat

  type Elem = seq<bv8>

  datatype Role = Reader | Writer

  /** Where a process stands inside `_read` or `_write`. */
  datatype Pc = Idle | Calling | Waited | Locked | Copied | Advanced | Posted

  /** `item` is the element to write, or the element just read. */
  datatype Proc = Proc(role: Role, pc: Pc, item: Elem)

  datatype Locking = Mutex | NoLock(reader: Pid, writer: Pid)

  /** `written` and `read` record the copies in the order they happen. */
  datatype State = State(
    locking: Locking,
    procs: map<Pid, Proc>,
    numElems: nat, numEmpty: nat, mutex: nat,
    first: nat, last: nat, slots: seq<Elem>,
    written: seq<Elem>, read: seq<Elem>)

  datatype Action =
    | Call(p: Pid, role: Role, item: Elem)
    | Wait(p: Pid)
    | Lock(p: Pid)
    | Copy(p: Pid)
    | Advance(p: Pid)
    | Post(p: Pid)
    | Unlock(p: Pid)

  predicate Initial(s: State) {
    && |s.slots| > 0
    && (forall p | p in s.procs :: s.procs[p].pc == Idle)
    && s.numElems == 0 && s.numEmpty == |s.slots| && s.mutex == 1
    && s.first == 0 && s.last == 0
    && s.written == [] && s.read == []
    && (s.locking.NoLock? ==> s.locking.reader != s.locking.writer)
  }

  predicate MayTake(s: State, p: Pid, role: Role) {
    match s.locking
    case Mutex => true
    case NoLock(reader, writer) => p == if role == Reader then reader else writer
  }

  /** The semaphore `_read` or `_write` waits on. */
  function Guard(s: State, role: Role): nat {
    if role == Reader then s.numElems else s.numEmpty
  }

  predicate Enabled(s: State, a: Action) {
    && a.p in s.procs
    && var q := s.procs[a.p];
       match a
       case Call(p, role, _) => q.pc == Idle && MayTake(s, p, role)
       case Wait(_) => q.pc == Calling && Guard(s, q.role) > 0
       case Lock(_) => q.pc == Waited && (s.locking == Mutex ==> s.mutex > 0)
       case Copy(_) => q.pc == Locked
       case Advance(_) => q.pc == Copied
       case Post(_) => q.pc == Advanced
       case Unlock(_) => q.pc == Posted
  }

  function Move(s: State, p: Pid, pc: Pc): State
    requires p in s.procs
  {
    s.(procs := s.procs[p := s.procs[p].(pc := pc)])
  }

  predicate InRange(s: State) { s.first < |s.slots| && s.last < |s.slots| }

  function Next(s: State, a: Action): State
    requires InRange(s) && Enabled(s, a)
  {
    var q := s.procs[a.p];
    match a
    case Call(p, role, item) => s.(procs := s.procs[p := Proc(role, Calling, item)])
    case Wait(p) =>
      var t := Move(s, p, Waited);
      if q.role == Reader then t.(numElems := s.numElems - 1) else t.(numEmpty := s.numEmpty - 1)
    case Lock(p) =>
      var t := Move(s, p, Locked);
      if s.locking == Mutex then t.(mutex := s.mutex - 1) else t
    case Copy(p) =>
      if q.role == Reader then
        var item := s.slots[s.first];
        s.(procs := s.procs[p := Proc(Reader, Copied, item)], read := s.read + [item])
      else
        Move(s, p, Copied).(slots := s.slots[s.last := q.item], written := s.written + [q.item])
    case Advance(p) =>
      var t := Move(s, p, Advanced);
      if q.role == Reader then t.(first := (s.first + 1) % |s.slots|)
      else t.(last := (s.last + 1) % |s.slots|)
    case Post(p) =>
      var t := Move(s, p, Posted);
      if q.role == Reader then t.(numEmpty := s.numEmpty + 1) else t.(numElems := s.numElems + 1)
    case Unlock(p) =>
      var t := Move(s, p, Idle);
      if s.locking == Mutex then t.(mutex := s.mutex + 1) else t
  }

  // ---- Counting processes ----

  function At(s: State, role: Role, pc: Pc): set<Pid> {
    set p | p in s.procs && s.procs[p].role == role && s.procs[p].pc == pc
  }

  function Num(s: State, role: Role, pc: Pc): nat {
    |At(s, role, pc)|
  }

  /** Processes between lock and unlock. */
  function Inside(s: State, role: Role): nat {
    Num(s, role, Locked) + Num(s, role, Copied) + Num(s, role, Advanced) + Num(s, role, Posted)
  }

  /** Processes between the wait and the post. */
  function InFlight(s: State, role: Role): nat {
    Num(s, role, Waited) + Num(s, role, Locked) + Num(s, role, Copied) + Num(s, role, Advanced)
  }

  function Bit(b: bool): nat { if b then 1 else 0 }

  predicate Is(s: State, p: Pid, role: Role, pc: Pc)
    requires p in s.procs
  {
    s.procs[p].role == role && s.procs[p].pc == pc
  }

  lemma Without(x: set<Pid>, p: Pid)
    ensures |x| == |x - {p}| + Bit(p in x)
  {
    if p in x { assert x == (x - {p}) + {p}; } else { assert x == x - {p}; }
  }

  /** A step of one process moves one unit between two counts. */
  lemma OneMoves(s: State, t: State, p: Pid, role: Role, pc: Pc)
    requires p in s.procs && t.procs.Keys == s.procs.Keys
    requires forall q | q in s.procs && q != p :: t.procs[q] == s.procs[q]
    ensures Num(t, role, pc) == Num(s, role, pc) - Bit(Is(s, p, role, pc)) + Bit(Is(t, p, role, pc))
  {
    var x, y := At(s, role, pc), At(t, role, pc);
    forall q ensures q in x - {p} <==> q in y - {p} {
      assert q in t.procs <==> q in s.procs;
    }
    assert x - {p} == y - {p};
    Without(x, p);
    Without(y, p);
  }

  lemma StepCount(s: State, a: Action, role: Role, pc: Pc)
    requires InRange(s) && Enabled(s, a)
    ensures var t := Next(s, a);
            Num(t, role, pc) == Num(s, role, pc) - Bit(Is(s, a.p, role, pc)) + Bit(Is(t, a.p, role, pc))
  {
    OneMoves(s, Next(s, a), a.p, role, pc);
  }

  predicate IsInside(s: State, p: Pid, role: Role)
    requires p in s.procs
  {
    s.procs[p].role == role && s.procs[p].pc in {Locked, Copied, Advanced, Posted}
  }

  lemma StepInside(s: State, a: Action, role: Role)
    requires InRange(s) && Enabled(s, a)
    ensures var t := Next(s, a);
            Inside(t, role) == Inside(s, role) - Bit(IsInside(s, a.p, role)) + Bit(IsInside(t, a.p, role))
  {
    StepCount(s, a, role, Locked);
    StepCount(s, a, role, Copied);
    StepCount(s, a, role, Advanced);
    StepCount(s, a, role, Posted);
  }

  lemma Counted(s: State, p: Pid)
    requires p in s.procs
    ensures Num(s, s.procs[p].role, s.procs[p].pc) > 0
  {
    assert p in At(s, s.procs[p].role, s.procs[p].pc);
  }

  // ---- The invariant ----

  /** The semaphores account for every element and every process on its way. */
  ghost predicate Balance(s: State) {
    && s.numElems + Num(s, Reader, Waited) + Num(s, Reader, Locked) + |s.read|
       == |s.written| - Num(s, Writer, Copied) - Num(s, Writer, Advanced)
    && s.numEmpty + Num(s, Writer, Waited) + Num(s, Writer, Locked) + |s.written|
       == |s.slots| + |s.read| - Num(s, Reader, Copied) - Num(s, Reader, Advanced)
  }

  /** At most one reader and at most one writer between lock and unlock. */
  ghost predicate Exclusive(s: State) {
    match s.locking
    case Mutex => s.mutex + Inside(s, Reader) + Inside(s, Writer) == 1
    case NoLock(reader, writer) =>
      && Inside(s, Reader) <= 1 && Inside(s, Writer) <= 1
      && (forall p | p in s.procs && s.procs[p].pc != Idle :: MayTake(s, p, s.procs[p].role))
  }

  ghost predicate Indices(s: State) {
    && |s.slots| > 0
    && Num(s, Reader, Copied) <= |s.read| <= |s.written| && Num(s, Writer, Copied) <= |s.written|
    && s.first == (|s.read| - Num(s, Reader, Copied)) % |s.slots|
    && s.last == (|s.written| - Num(s, Writer, Copied)) % |s.slots|
  }

  /** Every element written and not yet read is still in its slot. */
  ghost predicate Stored(s: State) {
    && |s.slots| > 0
    && (forall k | |s.read| <= k < |s.written| :: s.slots[k % |s.slots|] == s.written[k])
  }

  ghost predicate Inv(s: State) {
    && Balance(s) && Exclusive(s) && Indices(s) && Stored(s)
    && |s.read| <= |s.written| && s.read == s.written[..|s.read|]
  }

  lemma NobodyAt(s: State, role: Role, pc: Pc)
    requires forall p | p in s.procs :: !Is(s, p, role, pc)
    ensures Num(s, role, pc) == 0
  {
    assert At(s, role, pc) == {};
  }

  lemma InitialInv(s: State)
    requires Initial(s)
    ensures Inv(s)
  {
    forall role, pc | pc != Idle ensures Num(s, role, pc) == 0 { NobodyAt(s, role, pc); }
  }

  // ---- Every step keeps it ----

  lemma StepCountsOf(s: State, a: Action, role: Role)
    requires InRange(s) && Enabled(s, a)
    ensures var t := Next(s, a);
            && Num(t, role, Waited)
               == Num(s, role, Waited) - Bit(Is(s, a.p, role, Waited)) + Bit(Is(t, a.p, role, Waited))
            && Num(t, role, Locked)
               == Num(s, role, Locked) - Bit(Is(s, a.p, role, Locked)) + Bit(Is(t, a.p, role, Locked))
            && Num(t, role, Copied)
               == Num(s, role, Copied) - Bit(Is(s, a.p, role, Copied)) + Bit(Is(t, a.p, role, Copied))
            && Num(t, role, Advanced)
               == Num(s, role, Advanced) - Bit(Is(s, a.p, role, Advanced)) + Bit(Is(t, a.p, role, Advanced))
  {
    StepCount(s, a, role, Waited);
    StepCount(s, a, role, Locked);
    StepCount(s, a, role, Copied);
    StepCount(s, a, role, Advanced);
  }

  lemma StepBalance(s: State, a: Action)
    requires InRange(s) && Balance(s) && Enabled(s, a)
    ensures Balance(Next(s, a))
  {
    StepCountsOf(s, a, Reader);
    StepCountsOf(s, a, Writer);
  }

  lemma StepExclusiveMutex(s: State, a: Action)
    requires InRange(s) && Exclusive(s) && Enabled(s, a) && s.locking == Mutex
    ensures Exclusive(Next(s, a))
  {
    StepInside(s, a, Reader);
    StepInside(s, a, Writer);
  }

  lemma StepExclusiveNoLock(s: State, a: Action)
    requires InRange(s) && Exclusive(s) && Enabled(s, a) && s.locking != Mutex
    ensures Exclusive(Next(s, a))
  {
    StepInside(s, a, Reader);
    StepInside(s, a, Writer);
    if a.Lock? {
      OnlyProcess(s, a.p);
    }
  }

  /** Without a lock, a process that is not inside leaves its side empty. */
  lemma OnlyProcess(s: State, p: Pid)
    requires s.locking.NoLock? && Exclusive(s) && p in s.procs && s.procs[p].pc == Waited
    ensures Inside(s, s.procs[p].role) == 0
  {
    var role := s.procs[p].role;
    NobodyAt(s, role, Locked);
    NobodyAt(s, role, Copied);
    NobodyAt(s, role, Advanced);
    NobodyAt(s, role, Posted);
  }

  /** A copying process is alone on its side, so its slot is the next in order. */
  lemma CopySlots(s: State, p: Pid)
    requires Inv(s) && p in s.procs && s.procs[p].pc == Locked
    ensures s.procs[p].role == Reader ==> |s.read| < |s.written| && s.first == |s.read| % |s.slots|
    ensures s.procs[p].role == Writer ==> |s.written| < |s.read| + |s.slots| && s.last == |s.written| % |s.slots|
  {
    Counted(s, p);
  }

  lemma StepIndicesCopy(s: State, a: Action)
    requires Inv(s) && Enabled(s, a) && a.Copy?
    ensures Indices(Next(s, a))
  {
    StepCount(s, a, Reader, Copied);
    StepCount(s, a, Writer, Copied);
    CopySlots(s, a.p);
  }

  /** Who advances is alone on its side, and the other side is not touched. */
  lemma AdvanceCounts(s: State, a: Action, other: Role)
    requires InRange(s) && Exclusive(s) && Enabled(s, a) && a.Advance? && other != s.procs[a.p].role
    ensures var t, role := Next(s, a), s.procs[a.p].role;
            && Num(s, role, Copied) == 1 && Num(t, role, Copied) == 0
            && Num(t, other, Copied) == Num(s, other, Copied)
  {
    Counted(s, a.p);
    StepCount(s, a, s.procs[a.p].role, Copied);
    StepCount(s, a, other, Copied);
  }

  lemma ReaderAdvances(s: State, p: Pid)
    requires Exclusive(s) && Indices(s) && p in s.procs && Is(s, p, Reader, Copied)
    ensures Indices(Next(s, Advance(p)))
  {
    AdvanceCounts(s, Advance(p), Writer);
    NextSlot(s.first, |s.read|, |s.slots|);
  }

  lemma WriterAdvances(s: State, p: Pid)
    requires Exclusive(s) && Indices(s) && p in s.procs && Is(s, p, Writer, Copied)
    ensures Indices(Next(s, Advance(p)))
  {
    AdvanceCounts(s, Advance(p), Reader);
    NextSlot(s.last, |s.written|, |s.slots|);
  }

  lemma StepIndicesOther(s: State, a: Action)
    requires InRange(s) && Indices(s) && Enabled(s, a) && !a.Copy? && !a.Advance?
    ensures Indices(Next(s, a))
  {
    StepCount(s, a, Reader, Copied);
    StepCount(s, a, Writer, Copied);
  }

  /** A written element lands in a slot no unread element is in. */
  lemma WriteStored(s: State, p: Pid)
    requires Inv(s) && p in s.procs && Is(s, p, Writer, Locked)
    ensures Stored(Next(s, Copy(p)))
  {
    CopySlots(s, p);
    var t := Next(s, Copy(p));
    forall k | |t.read| <= k < |t.written| ensures t.slots[k % |t.slots|] == t.written[k] {
      if k < |s.written| { Apart(k, |s.written|, |s.slots|); }
    }
  }

  lemma StepStored(s: State, a: Action)
    requires Inv(s) && Enabled(s, a)
    ensures var t := Next(s, a);
            Stored(t) && |t.read| <= |t.written| && t.read == t.written[..|t.read|]
  {
    if a.Copy? {
      CopySlots(s, a.p);
      if s.procs[a.p].role == Writer { WriteStored(s, a.p); }
    }
  }

  lemma StepInv(s: State, a: Action)
    requires Inv(s) && Enabled(s, a)
    ensures Inv(Next(s, a))
  {
    StepBalance(s, a);
    if s.locking == Mutex { StepExclusiveMutex(s, a); } else { StepExclusiveNoLock(s, a); }
    if a.Copy? { StepIndicesCopy(s, a); }
    else if a.Advance? && s.procs[a.p].role == Reader { ReaderAdvances(s, a.p); }
    else if a.Advance? { WriterAdvances(s, a.p); }
    else { StepIndicesOther(s, a); }
    StepStored(s, a);
  }

  // ---- Runs ----

  /** The state after a run of actions, if every action was possible in turn. */
  ghost function Exec(s: State, run: seq<Action>): Option<State>
    decreases |run|
  {
    if run == [] then Some(s)
    else if !InRange(s) || !Enabled(s, run[0]) then None
    else Exec(Next(s, run[0]), run[1..])
  }

  ghost predicate Reachable(s: State) {
    exists s0, run :: Initial(s0) && Exec(s0, run) == Some(s)
  }

  lemma {:induction false} ExecInv(s: State, run: seq<Action>)
    requires Inv(s)
    ensures Exec(s, run).Some? ==> Inv(Exec(s, run).value)
    decreases |run|
  {
    if run != [] && InRange(s) && Enabled(s, run[0]) {
      StepInv(s, run[0]);
      ExecInv(Next(s, run[0]), run[1..]);
    }
  }

  /** Both indices stay inside the buffer, so no run ends because of them. */
  lemma ReachableInv(s: State)
    requires Reachable(s)
    ensures Inv(s) && InRange(s)
  {
    var s0, run :| Initial(s0) && Exec(s0, run) == Some(s);
    InitialInv(s0);
    ExecInv(s0, run);
  }

  /** Under every interleaving the elements read are a prefix of the elements written. */
  lemma ReadsAreAPrefix(s: State)
    requires Reachable(s)
    ensures |s.read| <= |s.written| <= |s.read| + |s.slots|
    ensures s.read == s.written[..|s.read|]
    ensures Stored(s)
  {
    ReachableInv(s);
  }

  /** A write never lands on a slot whose element is unread or still being released. */
  lemma WritesHitFreeSlots(s: State, p: Pid, k: nat)
    requires Reachable(s) && p in s.procs && Is(s, p, Writer, Locked)
    requires |s.read| - Num(s, Reader, Copied) - Num(s, Reader, Advanced) <= k < |s.written|
    ensures |s.slots| > 0 && s.last == |s.written| % |s.slots| && s.last != k % |s.slots|
  {
    ReachableInv(s);
    CopySlots(s, p);
    Counted(s, p);
    Apart(k, |s.written|, |s.slots|);
  }

  /**
   * A reader and a writer that copy at the same time, which only the queue
   * without a lock allows, never touch the same slot. The byte order inside
   * the two memcpy calls therefore does not matter.
   */
  lemma CopiesAreDisjoint(s: State, r: Pid, w: Pid)
    requires Reachable(s) && r in s.procs && w in s.procs
    requires Is(s, r, Reader, Locked) || Is(s, r, Reader, Copied)
    requires Is(s, w, Writer, Locked) || Is(s, w, Writer, Copied)
    ensures s.locking.NoLock? && s.first != s.last
  {
    ReachableInv(s);
    Counted(s, r);
    Counted(s, w);
    Apart(|s.read| - Num(s, Reader, Copied), |s.written| - Num(s, Writer, Copied), |s.slots|);
  }

  /** The two semaphores and the processes between wait and post add up to the capacity. */
  lemma SemaphoresConserveCapacity(s: State)
    requires Reachable(s)
    ensures s.numElems + s.numEmpty + InFlight(s, Reader) + InFlight(s, Writer) == |s.slots|
  {
    ReachableInv(s);
  }

  /** The process has started an operation and its next step is not enabled. */
  predicate Blocked(s: State, p: Pid)
    requires p in s.procs
  {
    var q := s.procs[p];
    (q.pc == Calling && Guard(s, q.role) == 0) || (q.pc == Waited && s.locking == Mutex && s.mutex == 0)
  }

  /** Blocked means just that: a process in the middle of an operation has no step. */
  lemma BlockedExactly(s: State, p: Pid)
    requires Reachable(s) && p in s.procs && s.procs[p].pc != Idle
    ensures Blocked(s, p) <==> forall a: Action | a.p == p :: !Enabled(s, a)
  {
    assert Enabled(s, Wait(p)) <==> s.procs[p].pc == Calling && Guard(s, s.procs[p].role) > 0;
    assert Enabled(s, Lock(p)) <==> s.procs[p].pc == Waited && (s.locking == Mutex ==> s.mutex > 0);
    assert Enabled(s, Copy(p)) <==> s.procs[p].pc == Locked;
    assert Enabled(s, Advance(p)) <==> s.procs[p].pc == Copied;
    assert Enabled(s, Post(p)) <==> s.procs[p].pc == Advanced;
    assert Enabled(s, Unlock(p)) <==> s.procs[p].pc == Posted;
  }

  /** All processes are stuck only if all write into a full buffer or all read from an empty one. */
  lemma StuckMeansFullOrEmpty(s: State)
    requires Reachable(s) && s.procs.Keys != {}
    requires forall p | p in s.procs :: Blocked(s, p)
    ensures || (s.numElems == |s.slots| && forall p | p in s.procs :: Is(s, p, Writer, Calling))
            || (s.numEmpty == |s.slots| && forall p | p in s.procs :: Is(s, p, Reader, Calling))
  {
    ReachableInv(s);
    forall role, pc | pc != Calling && pc != Waited ensures Num(s, role, pc) == 0 { NobodyAt(s, role, pc); }
    forall role ensures Num(s, role, Waited) == 0 { NobodyAt(s, role, Waited); }
    var p :| p in s.procs;
    assert Is(s, p, Reader, Calling) || Is(s, p, Writer, Calling);
  }
}
