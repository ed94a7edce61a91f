/** What the clients can always do, and that the queue holds what they sent. */
module SystemRuns {
  import opened Types
  import opened Requests
  import opened ServerState
  import opened Places
  import opened WholeSystem

  function SentBy(a: Action): seq<Request> {
    match a
    case Announce(r) => [r]
    case Send(r) => [r]
    case _ => []
  }

  /** The requests the clients queue along a run, in order. */
  function SentIn(run: seq<Action>): seq<Request> {
    if run == [] then []
    else SentBy(run[0]) + SentIn(run[1..])
  }

  function ServedIn(run: seq<Action>): nat {
    if run == [] then 0 else (if run[0].Serve? then 1 else 0) + ServedIn(run[1..])
  }

  lemma StepSends(sys: System, a: Action)
    requires Enabled(sys, a)
    ensures Do(sys, a).log == sys.log + SentBy(a)
    ensures Do(sys, a).head == sys.head + (if a.Serve? then 1 else 0)
  {
  }

  lemma Regroup(log: seq<Request>, more: seq<Request>, rest: seq<Request>)
    ensures (log + more) + rest == log + (more + rest)
  {
  }

  /** Nothing is lost from the queue, added to it or put in another order, and each request is served once, in turn. */
  lemma {:induction false} QueueIsWhatWasSent(sys: System, run: seq<Action>)
    requires Legal(sys, run)
    ensures After(sys, run).log == sys.log + SentIn(run)
    ensures After(sys, run).head == sys.head + ServedIn(run)
    decreases |run|
  {
    if run != [] {
      QueueIsWhatWasSent(Do(sys, run[0]), run[1..]);
      StepSends(sys, run[0]);
      Regroup(sys.log, SentBy(run[0]), SentIn(run[1..]));
    }
  }

  /** A thread that is cloned gets through its handshake and runs. */
  lemma ClonesRunThrough(sys: System, h: Request)
    requires h.Handshake() && (h.tid !in sys.clients || sys.clients[h.tid].Exited?)
    ensures var run := [Clone(h.tid), Announce(h), Enroll(h.tid), Wake(h.tid)];
            && Legal(sys, run)
            && After(sys, run)
               == sys.(log := sys.log + [h], tids := sys.tids + {h.tid}, clients := sys.clients[h.tid := Running])
  {
    var t := h.tid;
    var s1 := Do(sys, Clone(t));
    var s2 := Do(s1, Announce(h));
    var s3 := Do(s2, Enroll(t));
    var s4 := Do(s3, Wake(t));
    assert Legal(s4, []) && After(s4, []) == s4;
    assert Legal(s3, [Wake(t)]) && After(s3, [Wake(t)]) == s4 by { assert [Wake(t)][1..] == []; }
    assert Legal(s2, [Enroll(t), Wake(t)]) && After(s2, [Enroll(t), Wake(t)]) == s4 by {
      assert [Enroll(t), Wake(t)][1..] == [Wake(t)];
    }
    assert Legal(s1, [Announce(h), Enroll(t), Wake(t)]) && After(s1, [Announce(h), Enroll(t), Wake(t)]) == s4 by {
      assert [Announce(h), Enroll(t), Wake(t)][1..] == [Enroll(t), Wake(t)];
    }
    assert [Clone(t), Announce(h), Enroll(t), Wake(t)][1..] == [Announce(h), Enroll(t), Wake(t)];
    assert s4.clients == sys.clients[t := Running];
  }

  /** A running thread may send any request of its own, its exit included: its id is still enrolled. */
  lemma RunningThreadsMaySend(sys: System, r: Request)
    requires Reachable(sys) && Status(sys, r.tid, Running) && !r.Handshake()
    ensures Enabled(sys, Send(r))
  {
    ReachableIsInv(sys);
    assert ClientOk(sys, r.tid);
  }

  /** An answered thread may take its answer, runs on and leaves its response queue empty. */
  lemma AnsweredThreadsRunOn(sys: System, t: Tid)
    requires Reachable(sys) && At(sys.server, t, Answered(0))
    ensures Enabled(sys, Receive(t))
    ensures var next := Do(sys, Receive(t));
            && Status(next, t, Running) && next.server.responses == sys.server.responses[t := []]
            && next.log == sys.log && next.head == sys.head
  {
    ReachableIsInv(sys);
    PlacedIsHandled(sys, t, Answered(0));
    NeverTwoAnswers(sys, t);
  }
}
