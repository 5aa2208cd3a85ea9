/** What the reply stored for a request means (session/session.go: Merge; server/server.go: apply, Execute). */
module Answers {
  import opened Wrappers
  import opened Sessions
  import opened StateMachines
  import Replay

  /** GetResponse: what a retry of the request is answered with. */
  function StoredAnswer(t: SessionTable, h: SessionHeader): Option<Reply> {
    if h.id in t && t[h.id].processedSeq == h.seqNum then t[h.id].lastResponse else None
  }

  /** Right after an entry has been applied, what is stored for it is what executing it answered. */
  lemma AnswerIsStored(hash: Hash, gid: int, s: StateMachine, a: Args, t: StateMachine)
    requires Apply(hash, gid, s, a) == Some(t) && !Duplicate(s.sessions, a.header)
    ensures Execute(hash, gid, s, a.command).Some?
    ensures StoredAnswer(t.sessions, a.header) == Some(Execute(hash, gid, s, a.command).value.1)
  {
  }

  /** A request executed elsewhere, whose answer arrives with a pulled session: the retry gets that answer if and
    * only if the client's local session is behind the request, or has the same answer for it already. */
  lemma AnswerAfterMerge(t: SessionTable, from: SessionTable, h: SessionHeader, reply: Reply)
    requires StoredAnswer(from, h) == Some(reply)
    ensures StoredAnswer(Merged(t, from), h) == Some(reply) <==>
            (h.id in t ==> t[h.id].processedSeq < h.seqNum) || StoredAnswer(t, h) == Some(reply)
  {
    assert h.id in Merged(t, from);
  }

  /** In particular a refusal stored here for the same request outlives the answer given there. */
  lemma RefusalOutlivesAnswer(t: SessionTable, from: SessionTable, h: SessionHeader, reply: Reply)
    requires StoredAnswer(from, h) == Some(reply) && reply.status == OK
    requires StoredAnswer(t, h) == Some(Reply(ERR_WRONG_GROUP, ""))
    ensures StoredAnswer(Merged(t, from), h) == Some(Reply(ERR_WRONG_GROUP, ""))
  {
    assert h.id in Merged(t, from);
  }

  /** A request that a group has refused because it did not hold the shard is never executed by that group,
    * whatever else is applied, the arrival of the shard included. */
  lemma RefusedStaysRefused(hash: Hash, gid: int, s: StateMachine, a: Args, log: seq<Args>, t: StateMachine, u: StateMachine)
    requires a.command.GET? || a.command.PUT? || a.command.APPEND?
    requires !Duplicate(s.sessions, a.header) && !CheckShard(gid, s, hash(a.command.key))
    requires Apply(hash, gid, s, a) == Some(t) && ApplyAll(hash, gid, t, log) == Some(u)
    ensures t.shards == s.shards && StoredAnswer(t.sessions, a.header) == Some(Reply(ERR_WRONG_GROUP, ""))
    ensures Apply(hash, gid, u, a) == Some(u)
  {
    Replay.LogAdvancesSessions(hash, gid, t, log, u);
  }
}
