/** Client sessions (session/session.go): what each group remembers of every client, so that a
  * command delivered twice takes effect once. */
module Sessions {
  import opened Wrappers

  datatype ReplyStatus =
    | OK | ERR_WRONG_LEADER | ERR_NOT_READY | ERR_WRONG_GROUP
    | ERR_OUT_DATED_CONFIG | ERR_NO_KEY | ERR_BAD_SESSION

  datatype Reply = Reply(status: ReplyStatus, value: string)

  datatype SessionHeader = SessionHeader(id: int, seqNum: nat)

  datatype ServerSession = ServerSession(id: int, processedSeq: nat, lastResponse: Option<Reply>)

  type SessionTable = map<int, ServerSession>

  predicate Duplicate(t: SessionTable, h: SessionHeader) {
    h.id in t && h.seqNum <= t[h.id].processedSeq
  }

  /** The session of `h.id` after CreateSession (when there is none yet) and setResponse. */
  function Record(t: SessionTable, h: SessionHeader, reply: Reply): SessionTable {
    t[h.id := ServerSession(if h.id in t then t[h.id].id else h.id, h.seqNum, Some(reply))]
  }

  /** Merge keeps, client by client, the session that has processed more. */
  function Merged(t: SessionTable, from: SessionTable): SessionTable {
    map c | c in t.Keys + from.Keys ::
      if c in from && (c !in t || t[c].processedSeq < from[c].processedSeq) then from[c] else t[c]
  }

  /** `a` is nowhere ahead of `b`. */
  ghost predicate NotAhead(a: SessionTable, b: SessionTable) {
    forall c :: c in a ==> c in b && a[c].processedSeq <= b[c].processedSeq
  }

  /** The table has processed at least `seqNum` for client `c`. */
  predicate Processed(t: SessionTable, c: int, seqNum: nat) {
    c in t && seqNum <= t[c].processedSeq
  }

  /** Merging is an upper bound of both tables, and the least one: nothing is invented. */
  lemma MergeIsLeastUpperBound(t: SessionTable, from: SessionTable, other: SessionTable)
    ensures NotAhead(t, Merged(t, from)) && NotAhead(from, Merged(t, from))
    ensures NotAhead(t, other) && NotAhead(from, other) ==> NotAhead(Merged(t, from), other)
    ensures forall c :: c in Merged(t, from) ==>
                          (c in t && Merged(t, from)[c] == t[c]) || (c in from && Merged(t, from)[c] == from[c])
  {
  }

  /** The in-place session table of one replica. */
  class SessionMap {
    var Map: SessionTable

    constructor ()
      ensures Map == map[]
    {
      Map := map[];
    }

    method HasSession(id: int) returns (ok: bool)
      ensures ok <==> id in Map
    {
      ok := id in Map;
    }

    method CreateSession(id: int) returns (created: bool)
      modifies this
      ensures created <==> id !in old(Map)
      ensures Map == if created then old(Map)[id := ServerSession(id, 0, None)] else old(Map)
    {
      if id in Map {
        return false;
      }
      Map := Map[id := ServerSession(id, 0, None)];
      created := true;
    }

    method IsDuplicate(h: SessionHeader) returns (dup: bool)
      ensures dup <==> Duplicate(Map, h)
    {
      if h.id !in Map {
        return false;
      }
      if h.seqNum <= Map[h.id].processedSeq {
        return true;
      }
      return false;
    }

    /** The stored reply, only while `h` is still the last processed request (ErrReturned otherwise). */
    method GetResponse(h: SessionHeader) returns (r: Option<Reply>)
      requires h.id in Map
      ensures r == if h.seqNum == Map[h.id].processedSeq then Map[h.id].lastResponse else None
    {
      if h.seqNum != Map[h.id].processedSeq {
        return None;
      }
      r := Map[h.id].lastResponse;
    }

    /** The source panics when `h` is older than what was processed; callers must rule that out. */
    method SetResponse(h: SessionHeader, reply: Reply)
      requires h.id in Map && Map[h.id].processedSeq <= h.seqNum
      modifies this
      ensures Map == Record(old(Map), h, reply)
    {
      Map := Map[h.id := ServerSession(Map[h.id].id, h.seqNum, Some(reply))];
    }

    /** Takes over every session that has processed more than the local one; a tie keeps the local one. */
    method Merge(from: SessionTable)
      modifies this
      ensures Map == Merged(old(Map), from)
    {
      var todo := from.Keys;
      while todo != {}
        invariant todo <= from.Keys
        invariant Map == Merged(old(Map), map c | c in from.Keys - todo :: from[c])
        decreases todo
      {
        var c := AnyOf(todo);
        ghost var before := map c | c in from.Keys - todo :: from[c];
        if c !in Map || Map[c].processedSeq < from[c].processedSeq {
          Map := Map[c := from[c]];
        }
        todo := todo - {c};
        ghost var after := map c | c in from.Keys - todo :: from[c];
        assert after == before[c := from[c]];
      }
      assert (map c | c in from.Keys - todo :: from[c]) == from;
    }
  }
}
