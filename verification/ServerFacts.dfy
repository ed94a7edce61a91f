/** What each operation of the server leaves alone. */
module ServerFacts {
  import opened Types
  import opened CommitRules
  import opened ServerState

  lemma ReplyToNobody(r: Responses, v: U64)
    ensures ReplySet(r, {}, v) == r
  {
  }

  lemma ReplyToOneMore(r: Responses, ts: set<Tid>, t: Tid, v: U64)
    requires t !in ts
    ensures Reply(ReplySet(r, ts, v), t, v) == ReplySet(r, ts + {t}, v)
  {
  }

  lemma EraseOneMore(m: map<Tid, U64>, gone: set<Tid>, t: Tid)
    ensures m - gone - {t} == m - (gone + {t})
  {
  }

  /** Visiting a waiter moves it to the answered ones if it is to be released. */
  lemma Visit(released: set<Tid>, todo: set<Tid>, t: Tid)
    requires t in todo
    ensures released - (todo - {t}) == if t in released then (released - todo) + {t} else released - todo
  {
  }

  lemma {:induction false} ReplyEachKeys(r: Responses, tids: seq<Tid>, v: U64)
    ensures ReplyEach(r, tids, v).Keys == r.Keys
  {
    if tids != [] { ReplyEachKeys(r, tids[..|tids| - 1], v); }
  }

  /** Only waiters and answers differ, and waiters are only taken away. */
  ghost predicate OnlyAnswers(s: State, t: State) {
    && t.responses.Keys == s.responses.Keys
    && t.appNames == s.appNames && t.produced == s.produced && t.locations == s.locations
    && (forall p | p in t.awaitingCreation :: p in s.awaitingCreation && t.awaitingCreation[p] == s.awaitingCreation[p])
    && (forall p | p in t.awaitingData ::
          && p in s.awaitingData
          && forall x | x in t.awaitingData[p] ::
               x in s.awaitingData[p] && t.awaitingData[p][x] == s.awaitingData[p][x])
  }

  lemma UnlockCreationAnswers(s: State, path: Path)
    ensures OnlyAnswers(s, UnlockCreation(s, path)) && UnlockCreation(s, path).tokens == s.tokens
    ensures UnlockCreation(s, path).awaitingData == s.awaitingData
  {
    if path in s.awaitingCreation { ReplyEachKeys(s.responses, s.awaitingCreation[path], 1); }
  }

  lemma UnlockDataAnswers(s: State, env: Env, path: Path)
    ensures OnlyAnswers(s, UnlockData(s, env, path)) && UnlockData(s, env, path).tokens == s.tokens
    ensures UnlockData(s, env, path).awaitingCreation == s.awaitingCreation
  {
    if path in s.awaitingData {
      var kept := s.awaitingData[path] - Released(s, env, path);
      assert forall x | x in kept :: x in s.awaitingData[path] && kept[x] == s.awaitingData[path][x];
      assert ReplySet(s.responses, Released(s, env, path), ReleaseValue(env.fs, path)).Keys == s.responses.Keys;
    }
  }

  lemma OnlyAnswersTransitive(s: State, t: State, u: State)
    requires OnlyAnswers(s, t) && OnlyAnswers(t, u)
    ensures OnlyAnswers(s, u)
  {
  }

  lemma SetCommittedAnswers(s: State, env: Env, path: Path)
    ensures OnlyAnswers(s, SetCommitted(s, env, path))
    ensures SetCommitted(s, env, path).tokens == CreateToken(s, path).tokens
  {
    var s1 := CreateToken(s, path);
    UnlockDataAnswers(s1, env, path);
    UnlockCreationAnswers(UnlockData(s1, env, path), path);
    OnlyAnswersTransitive(s1, UnlockData(s1, env, path), SetCommitted(s, env, path));
  }

  lemma AnswersKeepKnown(s: State, t: State)
    requires OnlyAnswers(s, t) && WaitersKnown(s)
    ensures WaitersKnown(t)
  {
  }

  lemma SetCommittedKeepsKnown(s: State, env: Env, path: Path)
    requires WaitersKnown(s)
    ensures WaitersKnown(SetCommitted(s, env, path)) && SetCommitted(s, env, path).locations == s.locations
  {
    SetCommittedAnswers(s, env, path);
    AnswersKeepKnown(s, SetCommitted(s, env, path));
  }

  lemma {:induction false} SetAllCommittedGrows(s: State, env: Env, paths: seq<Path>)
    ensures OnlyAnswers(s, SetAllCommitted(s, env, paths))
    ensures TokensGrow(s.tokens, SetAllCommitted(s, env, paths).tokens)
  {
    if paths != [] {
      var front, last := paths[..|paths| - 1], paths[|paths| - 1];
      SetAllCommittedGrows(s, env, front);
      SetCommittedAnswers(SetAllCommitted(s, env, front), env, last);
    }
  }
}
