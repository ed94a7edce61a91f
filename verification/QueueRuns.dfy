/**
 * What goes through the ring queue, read off the run alone: the elements the
 * writers were called with, in the order of their copies, and which of them
 * each reader holds.
 */
module QueueRuns {
  import opened Types
  import opened QueueProtocol

  /** The last call of a process. */
  function LastCall(run: seq<Action>, p: Pid): Option<Action> {
    if run == [] then None
    else
      var a, before := run[|run| - 1], run[..|run| - 1];
      if a.Call? && a.p == p then Some(a) else LastCall(before, p)
  }

  predicate CopiesFor(run: seq<Action>, a: Action, role: Role) {
    a.Copy? && LastCall(run, a.p).Some? && LastCall(run, a.p).value.Call? && LastCall(run, a.p).value.role == role
  }

  /** The elements the writers were called with, in the order in which they copied them. */
  function Given(run: seq<Action>): seq<Elem> {
    if run == [] then []
    else
      var a, before := run[|run| - 1], run[..|run| - 1];
      Given(before) + (if CopiesFor(before, a, Writer) then [LastCall(before, a.p).value.item] else [])
  }

  /** How often readers have copied. */
  function Taken(run: seq<Action>): nat {
    if run == [] then 0
    else
      var a, before := run[|run| - 1], run[..|run| - 1];
      Taken(before) + (if CopiesFor(before, a, Reader) then 1 else 0)
  }

  /** How often readers had copied when this process last did. */
  function TurnOf(run: seq<Action>, p: Pid): nat {
    if run == [] then 0
    else
      var a, before := run[|run| - 1], run[..|run| - 1];
      if a.Copy? && a.p == p then Taken(before) else TurnOf(before, p)
  }

  predicate HasCopied(pc: Pc) {
    pc == Copied || pc == Advanced || pc == Posted
  }

  /** A process works for its last call; a writer keeps its element, and a reader that has copied holds its turn's. */
  ghost predicate ProcOk(s: State, run: seq<Action>, p: Pid) {
    p in s.procs && s.procs[p].pc != Idle ==>
      var q, call := s.procs[p], LastCall(run, p);
      && call.Some? && call.value.Call? && call.value.role == q.role
      && (q.role == Writer ==> q.item == call.value.item)
      && (q.role == Reader && HasCopied(q.pc) ==> TurnOf(run, p) < |s.read| && q.item == s.read[TurnOf(run, p)])
  }

  ghost predicate RunOk(s: State, run: seq<Action>) {
    s.written == Given(run) && |s.read| == Taken(run) && forall p :: ProcOk(s, run, p)
  }

  lemma OneMore(run: seq<Action>, a: Action)
    ensures (run + [a])[|run + [a]| - 1] == a && (run + [a])[..|run + [a]| - 1] == run
  {
  }

  lemma OthersOk(s: State, run: seq<Action>, a: Action, p: Pid)
    requires InRange(s) && Enabled(s, a) && ProcOk(s, run, p) && p != a.p
    ensures ProcOk(Next(s, a), run + [a], p)
  {
    OneMore(run, a);
  }

  lemma CallerOk(s: State, run: seq<Action>, a: Action)
    requires InRange(s) && Enabled(s, a) && a.Call?
    ensures ProcOk(Next(s, a), run + [a], a.p)
  {
    OneMore(run, a);
  }

  lemma CopierOk(s: State, run: seq<Action>, a: Action)
    requires InRange(s) && Enabled(s, a) && a.Copy? && |s.read| == Taken(run) && ProcOk(s, run, a.p)
    ensures ProcOk(Next(s, a), run + [a], a.p)
  {
    OneMore(run, a);
  }

  lemma MoverOk(s: State, run: seq<Action>, a: Action)
    requires InRange(s) && Enabled(s, a) && !a.Call? && !a.Copy? && ProcOk(s, run, a.p)
    ensures ProcOk(Next(s, a), run + [a], a.p)
  {
    OneMore(run, a);
  }

  lemma StepRunOk(s: State, run: seq<Action>, a: Action)
    requires Inv(s) && Enabled(s, a) && RunOk(s, run)
    ensures RunOk(Next(s, a), run + [a])
  {
    OneMore(run, a);
    assert ProcOk(s, run, a.p);
    forall p ensures ProcOk(Next(s, a), run + [a], p) {
      assert ProcOk(s, run, p);
      if p != a.p { OthersOk(s, run, a, p); }
      else if a.Call? { CallerOk(s, run, a); }
      else if a.Copy? { CopierOk(s, run, a); }
      else { MoverOk(s, run, a); }
    }
  }

  lemma Regrouped(before: seq<Action>, run: seq<Action>)
    requires run != []
    ensures before + [run[0]] + run[1..] == before + run
  {
  }

  lemma {:induction false} ExecRunOk(s: State, before: seq<Action>, run: seq<Action>, whole: seq<Action>)
    requires Inv(s) && RunOk(s, before) && Exec(s, run).Some? && whole == before + run
    ensures RunOk(Exec(s, run).value, whole) && Inv(Exec(s, run).value)
    decreases |run|
  {
    if run == [] {
      assert whole == before;
    } else {
      StepRunOk(s, before, run[0]);
      StepInv(s, run[0]);
      Regrouped(before, run);
      ExecRunOk(Next(s, run[0]), before + [run[0]], run[1..], whole);
    }
  }

  lemma RunsAreOk(s0: State, run: seq<Action>)
    requires Initial(s0) && Exec(s0, run).Some?
    ensures RunOk(Exec(s0, run).value, run) && Inv(Exec(s0, run).value)
  {
    InitialInv(s0);
    assert [] + run == run;
    ExecRunOk(s0, [], run, run);
  }

  /** What is in the queue and what was in it are the elements the writers were called with, in copy order. */
  lemma WrittenIsWhatWasGiven(s0: State, run: seq<Action>)
    requires Initial(s0) && Exec(s0, run).Some?
    ensures var s := Exec(s0, run).value;
            s.written == Given(run) && Taken(run) <= |Given(run)| && s.read == Given(run)[..Taken(run)]
  {
    RunsAreOk(s0, run);
  }

  /**
   * A reader that has copied holds, until it returns, the element whose turn it
   * was: the k-th reader to copy has the k-th element the writers were given.
   */
  lemma ReadersGetTheirTurn(s0: State, run: seq<Action>, p: Pid)
    requires Initial(s0) && Exec(s0, run).Some?
    requires var s := Exec(s0, run).value; p in s.procs && s.procs[p].role == Reader && HasCopied(s.procs[p].pc)
    ensures TurnOf(run, p) < |Given(run)| && Exec(s0, run).value.procs[p].item == Given(run)[TurnOf(run, p)]
  {
    RunsAreOk(s0, run);
    assert ProcOk(Exec(s0, run).value, run, p);
  }

  /** A writer holds the element it was called with until it returns. */
  lemma WritersKeepTheirElement(s0: State, run: seq<Action>, p: Pid)
    requires Initial(s0) && Exec(s0, run).Some?
    requires var s := Exec(s0, run).value; p in s.procs && s.procs[p].role == Writer && s.procs[p].pc != Idle
    ensures LastCall(run, p) == Some(Call(p, Writer, Exec(s0, run).value.procs[p].item))
  {
    RunsAreOk(s0, run);
    assert ProcOk(Exec(s0, run).value, run, p);
    LastCallIsOwn(run, p);
  }

  lemma {:induction false} LastCallIsOwn(run: seq<Action>, p: Pid)
    ensures LastCall(run, p).Some? ==> LastCall(run, p).value.Call? && LastCall(run, p).value.p == p
  {
    if run != [] { LastCallIsOwn(run[..|run| - 1], p); }
  }

  /** The two copies: the reader's buffer gets the oldest element, and the slot gets the writer's. */
  lemma CopyMovesTheElement(s: State, p: Pid)
    requires Reachable(s) && p in s.procs && s.procs[p].pc == Locked
    ensures InRange(s)
    ensures var t := Next(s, Copy(p));
            if s.procs[p].role == Reader then
              && |s.read| < |s.written| && t.procs[p].item == s.written[|s.read|]
              && t.read == s.read + [t.procs[p].item] && t.written == s.written && t.slots == s.slots
            else
              && t.written == s.written + [s.procs[p].item] && t.read == s.read
              && |t.slots| == |s.slots| > 0 && t.slots[|s.written| % |s.slots|] == s.procs[p].item
  {
    ReachableInv(s);
    CopySlots(s, p);
  }
}
