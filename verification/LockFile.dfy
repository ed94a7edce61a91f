/**
 * `increaseCloseCount` run by any number of servers on one token file: the
 * lock file is created exclusively, the count is read, the token is truncated
 * and rewritten, and the lock file is closed and unlinked.
 */
module LockFile {
  import opened Types
  import opened CommitRules

  type Node = nat

  datatype Pc =
    | Outside
    | Spinning
    | Holding
    | HasRead(count: nat)
    | Truncated(count: nat)
    | Rewritten
    | Closed

  /** `token` is the text of the token file as a number; an empty file reads as 0. */
  datatype State = State(
    nodes: map<Node, Pc>,
    lockExists: bool,
    token: nat,
    initial: nat,
    completed: nat)

  datatype Action =
    | Start(n: Node)
    | TryOpen(n: Node)
    | ReadCount(n: Node)
    | Truncate(n: Node)
    | Rewrite(n: Node)
    | CloseFile(n: Node)
    | Unlink(n: Node)

  predicate Initial(s: State) {
    && (forall n | n in s.nodes :: s.nodes[n] == Outside)
    && !s.lockExists && s.token == s.initial && s.completed == 0
  }

  predicate Enabled(s: State, a: Action) {
    && a.n in s.nodes
    && match a
       case Start(n) => s.nodes[n].Outside?
       case TryOpen(n) => s.nodes[n].Spinning?
       case ReadCount(n) => s.nodes[n].Holding?
       case Truncate(n) => s.nodes[n].HasRead?
       case Rewrite(n) => s.nodes[n].Truncated?
       case CloseFile(n) => s.nodes[n].Rewritten?
       case Unlink(n) => s.nodes[n].Closed?
  }

  /** A failed exclusive open leaves the server spinning. */
  function Next(s: State, a: Action): State
    requires Enabled(s, a)
  {
    match a
    case Start(n) => s.(nodes := s.nodes[n := Spinning])
    case TryOpen(n) => if s.lockExists then s else s.(nodes := s.nodes[n := Holding], lockExists := true)
    case ReadCount(n) => s.(nodes := s.nodes[n := HasRead(s.token)])
    case Truncate(n) => s.(nodes := s.nodes[n := Truncated(s.nodes[n].count)], token := 0)
    case Rewrite(n) =>
      s.(nodes := s.nodes[n := Rewritten], token := s.nodes[n].count + 1, completed := s.completed + 1)
    case CloseFile(n) => s.(nodes := s.nodes[n := Closed])
    case Unlink(n) => s.(nodes := s.nodes[n := Outside], lockExists := false)
  }

  predicate Critical(pc: Pc) { !pc.Outside? && !pc.Spinning? }

  ghost predicate Holder(s: State, n: Node) { n in s.nodes && Critical(s.nodes[n]) }

  /** Some server has emptied the token and not yet rewritten it. */
  ghost predicate MidRewrite(s: State) {
    exists n :: n in s.nodes && s.nodes[n].Truncated?
  }

  /** A server that has read the count has read the current one. */
  predicate Current(s: State, n: Node)
    requires n in s.nodes
  {
    match s.nodes[n]
    case HasRead(c) => c == s.initial + s.completed
    case Truncated(c) => c == s.initial + s.completed
    case _ => true
  }

  ghost predicate Inv(s: State) {
    && (s.lockExists <==> exists n :: Holder(s, n))
    && (forall m, n | Holder(s, m) && Holder(s, n) :: m == n)
    && (forall n | n in s.nodes :: Current(s, n))
    && s.token == if MidRewrite(s) then 0 else s.initial + s.completed
  }

  lemma OthersOutside(s: State, n: Node)
    requires Inv(s) && Holder(s, n)
    ensures forall m | m in s.nodes && m != n :: !Critical(s.nodes[m])
  {
    forall m | m in s.nodes && m != n ensures !Critical(s.nodes[m]) {
      assert Holder(s, m) ==> m == n;
    }
  }

  lemma StepInv(s: State, a: Action)
    requires Inv(s) && Enabled(s, a)
    ensures Inv(Next(s, a))
  {
    var t := Next(s, a);
    assert MidRewrite(t) <==> exists n :: n in t.nodes && t.nodes[n].Truncated?;
    if a.Start? || (a.TryOpen? && s.lockExists) {
      assert forall n :: Holder(t, n) <==> Holder(s, n);
      assert forall n | n in s.nodes && s.nodes[n].Truncated? :: t.nodes[n].Truncated?;
    } else if a.TryOpen? {
      assert Holder(t, a.n);
      assert forall n | n in s.nodes :: !Holder(s, n);
    } else {
      assert Holder(s, a.n);
      OthersOutside(s, a.n);
      assert !a.Unlink? ==> Holder(t, a.n);
      assert forall n | n in t.nodes && n != a.n :: !Critical(t.nodes[n]);
      if a.Truncate? { assert t.nodes[a.n].Truncated?; }
    }
  }

  /** The state after a run of actions, if every action was enabled in turn. */
  ghost function Exec(s: State, run: seq<Action>): Option<State>
    decreases |run|
  {
    if run == [] then Some(s)
    else if !Enabled(s, run[0]) then None
    else Exec(Next(s, run[0]), run[1..])
  }

  lemma {:induction false} ExecInv(s: State, run: seq<Action>)
    requires Inv(s)
    ensures Exec(s, run).Some? ==> Inv(Exec(s, run).value) && Exec(s, run).value.initial == s.initial
    decreases |run|
  {
    if run != [] && Enabled(s, run[0]) {
      StepInv(s, run[0]);
      ExecInv(Next(s, run[0]), run[1..]);
    }
  }

  /** The lock file has at most one holder, and exists exactly while it has one. */
  lemma AtMostOneHolder(s0: State, run: seq<Action>, m: Node, n: Node)
    requires Initial(s0) && Exec(s0, run).Some?
    ensures var s := Exec(s0, run).value;
            && (Holder(s, m) ==> s.lockExists)
            && (Holder(s, m) && Holder(s, n) ==> m == n)
  {
    ExecInv(s0, run);
  }

  /**
   * The stored count is the count found plus the completed increments, except
   * while some server stands between truncating and rewriting the token: then
   * a reader that takes no lock sees 0, whatever the count was.
   */
  lemma TokenExactly(s0: State, run: seq<Action>)
    requires Initial(s0) && Exec(s0, run).Some?
    ensures var s := Exec(s0, run).value;
            s.token == if MidRewrite(s) then 0 else s0.initial + s.completed
  {
    ExecInv(s0, run);
  }

  /**
   * What that does to `isCommitted`, which takes no lock: a file with rule
   * on_close:n is judged otherwise than by its true count exactly in the middle
   * of a rewrite, once the count has reached n. It is then taken for uncommitted.
   */
  lemma JudgedWronglyExactly(s0: State, run: seq<Action>, w: World, p: Path)
    requires Initial(s0) && Exec(s0, run).Some?
    requires !IsDirectory(w.fs, p) && CommitRuleOf(w.locations, p) == OnClose
    ensures var s, n := Exec(s0, run).value, w.locations[p].closes;
            var seen := Committed(w.(tokens := w.tokens[p := s.token]), p);
            var meant := Committed(w.(tokens := w.tokens[p := s0.initial + s.completed]), p);
            && (seen != meant <==> MidRewrite(s) && n > 0 && s0.initial + s.completed >= n)
            && (seen ==> meant)
  {
    TokenExactly(s0, run);
    var s := Exec(s0, run).value;
    OnCloseCommitted(w.(tokens := w.tokens[p := s.token]), p);
    OnCloseCommitted(w.(tokens := w.tokens[p := s0.initial + s.completed]), p);
  }

  /** With the lock free, a server that tries for it and is left alone completes its increment. */
  lemma LoneServerCompletes(s: State, n: Node)
    requires Inv(s) && n in s.nodes && s.nodes[n].Spinning? && !s.lockExists
    ensures var run := [TryOpen(n), ReadCount(n), Truncate(n), Rewrite(n), CloseFile(n), Unlink(n)];
            && Exec(s, run)
               == Some(s.(nodes := s.nodes[n := Outside], token := s.token + 1, completed := s.completed + 1))
            && s.token == s.initial + s.completed
  {
    var s1 := Next(s, TryOpen(n));
    var s2 := Next(s1, ReadCount(n));
    var s3 := Next(s2, Truncate(n));
    var s4 := Next(s3, Rewrite(n));
    var s5 := Next(s4, CloseFile(n));
    var s6 := Next(s5, Unlink(n));
    assert Exec(s5, [Unlink(n)]) == Exec(s6, []) == Some(s6);
    assert Exec(s4, [CloseFile(n), Unlink(n)]) == Some(s6);
    assert Exec(s3, [Rewrite(n), CloseFile(n), Unlink(n)]) == Some(s6);
    assert Exec(s2, [Truncate(n), Rewrite(n), CloseFile(n), Unlink(n)]) == Some(s6);
    assert Exec(s1, [ReadCount(n), Truncate(n), Rewrite(n), CloseFile(n), Unlink(n)]) == Some(s6);
    assert s6 == s.(nodes := s.nodes[n := Outside], token := s.token + 1, completed := s.completed + 1);
    assert forall m | m in s.nodes && s.nodes[m].Truncated? :: Holder(s, m);
  }

  /** A server outside may always start to try, which changes nothing else. */
  lemma OutsiderTries(s: State, n: Node)
    requires n in s.nodes && s.nodes[n].Outside?
    ensures Enabled(s, Start(n)) && Next(s, Start(n)) == s.(nodes := s.nodes[n := Spinning])
  {
  }

  /** While the lock is held, every other server that wants it goes on trying, and nothing else changes. */
  lemma OthersSpin(s: State, n: Node)
    requires n in s.nodes && s.nodes[n].Spinning? && s.lockExists
    ensures Enabled(s, TryOpen(n)) && Next(s, TryOpen(n)) == s
  {
  }
}
