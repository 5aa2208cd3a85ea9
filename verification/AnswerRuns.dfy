/** What a retry is answered with, over whole runs of the migrating system (server/server.go: Execute, apply,
  * applyInsertShards; session/session.go). */
module AnswerRuns {
  import opened Wrappers
  import opened Sessions
  import opened StateMachines
  import opened Answers
  import opened Migration
  import opened MigrationInvariant
  import opened MigrationCommit
  import opened MigrationSafety

  const Refusal := Reply(ERR_WRONG_GROUP, "")

  predicate Keyed(c: Command) {
    c.GET? || c.PUT? || c.APPEND?
  }

  /** A clerk gives a number to one command only; a retry is the same command. */
  ghost predicate OneCommandPerNumber(w: World) {
    forall g, a, k, b :: (g, a) in w.proposed && (k, b) in w.proposed && a.header == b.header ==> a.command == b.command
  }

  // ---------- where stored replies come from ----------

  ghost predicate AnsweredBy(w: World, h: SessionHeader, r: Reply) {
    exists j :: 0 <= j < |w.events| && w.events[j].header == h && w.events[j].reply == r
  }

  ghost predicate Internal(w: World, h: SessionHeader) {
    exists g, a :: (g, a) in w.proposed && a.header == h && !Keyed(a.command)
  }

  /** What is stored for a client's number is a refusal, what an execution answered, or belongs to no client
    * command at all. */
  ghost predicate Caused(w: World, c: int, s: ServerSession) {
    && s.lastResponse.Some?
    && var h := SessionHeader(c, s.processedSeq);
       s.lastResponse.value == Refusal || AnsweredBy(w, h, s.lastResponse.value) || Internal(w, h)
  }

  ghost predicate TableCaused(w: World, t: SessionTable) {
    forall c :: c in t ==> Caused(w, c, t[c])
  }

  ghost predicate StatesCaused(w: World) {
    forall g, i :: g in w.history && 0 <= i < |w.history[g]| ==> TableCaused(w, w.history[g][i].sessions)
  }

  ghost predicate RepliesCaused(w: World) {
    forall p :: p in w.pullReplies ==> TableCaused(w, p.response.serverSessions)
  }

  /** Executed commands have been proposed with that number. */
  ghost predicate EventsProposed(w: World) {
    forall j :: 0 <= j < |w.events| ==> (w.events[j].gid, Args(w.events[j].header, w.events[j].command)) in w.proposed
  }

  ghost predicate AnswersOk(w: World) {
    StatesCaused(w) && RepliesCaused(w) && EventsProposed(w)
  }

  /** Nothing is unproposed or unexecuted. */
  ghost predicate Later(w: World, v: World) {
    w.proposed <= v.proposed && w.events <= v.events
  }

  lemma CausedLater(w: World, v: World, t: SessionTable)
    requires Later(w, v) && TableCaused(w, t)
    ensures TableCaused(v, t)
  {
    forall c | c in t
      ensures Caused(v, c, t[c])
    {
      var h, r := SessionHeader(c, t[c].processedSeq), t[c].lastResponse.value;
      assert Caused(w, c, t[c]);
      if AnsweredBy(w, h, r) {
        var j :| 0 <= j < |w.events| && w.events[j].header == h && w.events[j].reply == r;
        assert v.events[j] == w.events[j];
      } else if Internal(w, h) {
        var g, a :| (g, a) in w.proposed && a.header == h && !Keyed(a.command);
        assert (g, a) in v.proposed;
      }
    }
  }

  lemma StepLater(d: Deployment, w: World, step: Step)
    requires Enabled(d, w, step)
    ensures Later(w, Take(d, w, step))
  {
  }

  /** What executing a command leaves in the sessions, before its own answer is recorded. */
  lemma ExecuteSessions(hash: Hash, g: int, s: StateMachine, c: Command)
    requires Execute(hash, g, s, c).Some?
    ensures var t := Execute(hash, g, s, c).value.0.sessions;
            t == s.sessions || (c.INSERT_SHARDS? && t == Merged(s.sessions, c.pulled.serverSessions))
  {
  }

  lemma MergedCaused(w: World, t: SessionTable, from: SessionTable)
    requires TableCaused(w, t) && TableCaused(w, from)
    ensures TableCaused(w, Merged(t, from))
  {
  }

  lemma RecordCaused(w: World, t: SessionTable, h: SessionHeader, r: Reply)
    requires TableCaused(w, t) && (r == Refusal || AnsweredBy(w, h, r) || Internal(w, h))
    ensures TableCaused(w, Record(t, h, r))
  {
  }

  /** The answer that a committed command records. */
  lemma CommitAnswer(d: Deployment, w: World, g: int, a: Args)
    requires Enabled(d, w, Commit(g, a)) && !Duplicate(Last(w, g).sessions, a.header)
    ensures Execute(d.hash, g, Last(w, g), a.command).Some?
    ensures var r, v := Execute(d.hash, g, Last(w, g), a.command).value.1, Take(d, w, Commit(g, a));
            r == Refusal || AnsweredBy(v, a.header, r) || Internal(v, a.header)
  {
    var s, v := Last(w, g), Take(d, w, Commit(g, a));
    var r := Execute(d.hash, g, s, a.command).value.1;
    if !Keyed(a.command) {
      assert (g, a) in v.proposed;
    } else if CheckShard(g, s, d.hash(a.command.key)) {
      assert EventsOf(d, g, s, a) == [Event(g, a.header, a.command, r)];
      assert v.events[|w.events|].reply == r;
    }
  }

  lemma PulledCaused(d: Deployment, w: World, g: int, a: Args)
    requires MessagesOk(d, w) && RepliesCaused(w) && (g, a) in w.proposed && a.command.INSERT_SHARDS?
    ensures TableCaused(w, a.command.pulled.serverSessions)
  {
    assert ProposalOk(d, w.history, w.pullReplies, g, a);
    var p :| p in w.pullReplies && p.request.requester == g && p.response == a.command.pulled;
  }

  lemma CommittedCaused(d: Deployment, w: World, g: int, a: Args)
    requires MessagesOk(d, w) && AnswersOk(w) && Enabled(d, w, Commit(g, a))
    ensures TableCaused(Take(d, w, Commit(g, a)), Apply(d.hash, g, Last(w, g), a).value.sessions)
  {
    var s, v := Last(w, g), Take(d, w, Commit(g, a));
    assert s == w.history[g][|w.history[g]| - 1];
    StepLater(d, w, Commit(g, a));
    CausedLater(w, v, s.sessions);
    if !Duplicate(s.sessions, a.header) {
      CommitAnswer(d, w, g, a);
      var x := Execute(d.hash, g, s, a.command).value;
      ExecuteSessions(d.hash, g, s, a.command);
      if x.0.sessions != s.sessions {
        PulledCaused(d, w, g, a);
        CausedLater(w, v, a.command.pulled.serverSessions);
        MergedCaused(v, s.sessions, a.command.pulled.serverSessions);
      }
      RecordCaused(v, x.0.sessions, a.header, x.1);
    }
  }

  lemma StatesStayCaused(d: Deployment, w: World, step: Step)
    requires MessagesOk(d, w) && AnswersOk(w) && Enabled(d, w, step)
    ensures StatesCaused(Take(d, w, step))
  {
    var v := Take(d, w, step);
    StepLater(d, w, step);
    if step.Commit? {
      CommittedCaused(d, w, step.g, step.args);
    }
    forall g, i | g in v.history && 0 <= i < |v.history[g]|
      ensures TableCaused(v, v.history[g][i].sessions)
    {
      if g in w.history && i < |w.history[g]| {
        assert v.history[g][i] == w.history[g][i];
        CausedLater(w, v, w.history[g][i].sessions);
      }
    }
  }

  lemma RepliesStayCaused(d: Deployment, w: World, step: Step)
    requires AnswersOk(w) && Enabled(d, w, step)
    ensures RepliesCaused(Take(d, w, step))
  {
    var v := Take(d, w, step);
    StepLater(d, w, step);
    forall p | p in v.pullReplies
      ensures TableCaused(v, p.response.serverSessions)
    {
      if p !in w.pullReplies {
        assert TableCaused(w, w.history[step.request.source][step.i].sessions);
      }
      CausedLater(w, v, p.response.serverSessions);
    }
  }

  lemma EventsStayProposed(d: Deployment, w: World, step: Step)
    requires AnswersOk(w) && Enabled(d, w, step)
    ensures EventsProposed(Take(d, w, step))
  {
    var v := Take(d, w, step);
    StepLater(d, w, step);
    forall j | 0 <= j < |v.events|
      ensures (v.events[j].gid, Args(v.events[j].header, v.events[j].command)) in v.proposed
    {
      if j < |w.events| {
        assert v.events[j] == w.events[j];
      }
    }
  }

  lemma {:induction false} RunAnswers(d: Deployment, steps: seq<Step>)
    requires Sound(d) && Run(d, steps).Some?
    ensures AnswersOk(Run(d, steps).value)
  {
    if steps != [] {
      var n := |steps| - 1;
      var w := Run(d, steps[..n]).value;
      RunAnswers(d, steps[..n]);
      RunKeeps(d, steps[..n]);
      StatesStayCaused(d, w, steps[n]);
      RepliesStayCaused(d, w, steps[n]);
      EventsStayProposed(d, w, steps[n]);
    }
  }

  // ---------- what a retry gets ----------

  /** A client's number stands for at most one execution. */
  lemma OneExecution(d: Deployment, w: World, i: nat, j: nat)
    requires EventsOk(d, w.events) && EventsProposed(w) && OneCommandPerNumber(w)
    requires i < |w.events| && j < |w.events| && w.events[i].header == w.events[j].header
    ensures i == j
  {
    var e := w.events;
    assert e[i].command == e[j].command;
    var s := d.hash(e[i].command.key);
    assert EventOn(d, e[i], s) && EventOn(d, e[j], s);
  }

  lemma NotInternal(w: World, i: nat)
    requires EventsProposed(w) && OneCommandPerNumber(w) && i < |w.events| && Keyed(w.events[i].command)
    ensures !Internal(w, w.events[i].header)
  {
    forall g, a | (g, a) in w.proposed && a.header == w.events[i].header
      ensures Keyed(a.command)
    {
    }
  }

  /** A group that serves the shard of an executed request knows of the request. */
  lemma ServerKnows(d: Deployment, w: World, i: nat, g: int, s: int)
    requires ServedOk(d, w.history, w.events) && i < |w.events| && EventOn(d, w.events[i], s) && Serves(d, w.history, g, s)
    ensures Processed(LastOf(w.history, g).sessions, w.events[i].header.id, w.events[i].header.seqNum)
  {
    assert UpToDate(d, w.events, s, LastOf(w.history, g).shards[s].KV, LastOf(w.history, g).sessions);
  }

  /** What is stored for an executed request is its answer, or a refusal. */
  lemma StoredIsAnswerOrRefusal(d: Deployment, w: World, i: nat, c: ServerSession)
    requires EventsOk(d, w.events) && EventsProposed(w) && OneCommandPerNumber(w) && i < |w.events|
    requires c.processedSeq == w.events[i].header.seqNum && Caused(w, w.events[i].header.id, c)
    ensures c.lastResponse == Some(Refusal) || c.lastResponse == Some(w.events[i].reply)
  {
    var h := w.events[i].header;
    NotInternal(w, i);
    if c.lastResponse.value != Refusal {
      var j :| 0 <= j < |w.events| && w.events[j].header == h && w.events[j].reply == c.lastResponse.value;
      OneExecution(d, w, i, j);
    }
  }

  lemma AnswerIsNoRefusal(d: Deployment, w: World, i: nat)
    requires EventsOk(d, w.events) && i < |w.events|
    ensures w.events[i].reply != Refusal
  {
  }

  /** Group `g` serves the shard of the executed request `i` now. */
  ghost predicate ServedBy(d: Deployment, w: World, i: nat, g: int, s: int) {
    && i < |w.events| && EventOn(d, w.events[i], s)
    && g in w.history && w.history[g] != [] && CheckShard(g, Last(w, g), s)
  }

  lemma RetryInWorld(d: Deployment, w: World, i: nat, g: int, s: int)
    requires ServedOk(d, w.history, w.events) && EventsOk(d, w.events) && AnswersOk(w) && OneCommandPerNumber(w)
    requires ServedBy(d, w, i, g, s)
    ensures var t, h := Last(w, g).sessions, w.events[i].header;
            && Duplicate(t, h)
            && (StoredAnswer(t, h) == Some(w.events[i].reply) <==>
                t[h.id].processedSeq == h.seqNum && t[h.id].lastResponse != Some(Refusal))
  {
    var t, h := Last(w, g).sessions, w.events[i].header;
    assert LastOf(w.history, g) == Last(w, g) == w.history[g][|w.history[g]| - 1];
    ServerKnows(d, w, i, g, s);
    AnswerIsNoRefusal(d, w, i);
    if t[h.id].processedSeq == h.seqNum {
      assert TableCaused(w, t);
      StoredIsAnswerOrRefusal(d, w, i, t[h.id]);
    }
  }

  lemma RunIsAnswered(d: Deployment, steps: seq<Step>)
    requires Sound(d) && Run(d, steps).Some?
    ensures var w := Run(d, steps).value;
            ServedOk(d, w.history, w.events) && EventsOk(d, w.events) && AnswersOk(w) && SessionsOk(w)
  {
    RunKeeps(d, steps);
    RunAnswers(d, steps);
  }

  /** Of a request that has been executed, on whatever group, and the group that serves its shard now, however
    * often the shard has moved: the group knows of the request, so that it will not execute it again; and a
    * retry gets the answer of the execution if and only if the group has not gone past the client's number, and
    * does not hold a refusal of its own, or of a former owner, for it. */
  lemma RetryGetsTheAnswer(d: Deployment, steps: seq<Step>, i: nat, g: int, s: int)
    requires Sound(d) && Run(d, steps).Some? && OneCommandPerNumber(Run(d, steps).value)
    requires ServedBy(d, Run(d, steps).value, i, g, s)
    ensures var w := Run(d, steps).value;
            var t, h := Last(w, g).sessions, w.events[i].header;
            && Duplicate(t, h)
            && (StoredAnswer(t, h) == Some(w.events[i].reply) <==>
                t[h.id].processedSeq == h.seqNum && t[h.id].lastResponse != Some(Refusal))
  {
    RunIsAnswered(d, steps);
    RetryInWorld(d, Run(d, steps).value, i, g, s);
  }

  /** So, as long as the client has used no later number, a retry is answered as the execution was, or refused
    * if a refusal is stored. */
  lemma RetryBeforeTheNext(d: Deployment, steps: seq<Step>, i: nat, g: int, s: int)
    requires Sound(d) && Run(d, steps).Some? && OneCommandPerNumber(Run(d, steps).value)
    requires ServedBy(d, Run(d, steps).value, i, g, s)
    requires var w := Run(d, steps).value;
             var h := w.events[i].header; h.id in w.issued ==> w.issued[h.id] <= h.seqNum
    ensures var w := Run(d, steps).value;
            var t, h := Last(w, g).sessions, w.events[i].header;
            StoredAnswer(t, h) == Some(w.events[i].reply) || StoredAnswer(t, h) == Some(Refusal)
  {
    RunIsAnswered(d, steps);
    NotGonePast(d, Run(d, steps).value, i, g, s);
  }

  lemma NotGonePast(d: Deployment, w: World, i: nat, g: int, s: int)
    requires ServedOk(d, w.history, w.events) && EventsOk(d, w.events) && AnswersOk(w) && SessionsOk(w) && OneCommandPerNumber(w)
    requires ServedBy(d, w, i, g, s)
    requires var h := w.events[i].header; h.id in w.issued ==> w.issued[h.id] <= h.seqNum
    ensures var t, h := Last(w, g).sessions, w.events[i].header;
            StoredAnswer(t, h) == Some(w.events[i].reply) || StoredAnswer(t, h) == Some(Refusal)
  {
    RetryInWorld(d, w, i, g, s);
    assert Last(w, g) == w.history[g][|w.history[g]| - 1];
    assert Within(Last(w, g).sessions, w.issued);
  }
}
