/** The locked regions of raft/raft.go on the fields that they update, each proved to take the step of
  * RaftProtocol that models it. */
module RaftNode {
  import opened Wrappers
  import opened RaftProtocol
  import opened CompactedLog
  import opened Persistence
  import Wire
  import RaftWire
  import E = RaftElection
  import R = RaftReplication

  datatype Status = Success | OldTerm | NotContain | OldSnapshotReply
  datatype Reply = Reply(term: nat, status: Status, xTerm: nat, xIndex: nat, xLen: nat)

  /** What a follower with this log answers to a request that builds on an entry it does not have. None:
    * the search for the first entry of the term finds nothing, and the source panics. */
  function NotContainReply(term: nat, l: Log, snap: nat, prev: nat): Option<Reply>
    requires snap <= |l|
  {
    if prev > |l| then Some(Reply(term, NotContain, 0, 0, |l| + 1))
    else
      match FirstOf(l, snap, TermAt(l, prev))
      case None => None
      case Some(e) => Some(Reply(term, NotContain, TermAt(l, prev), e.index, 0))
  }

  /** The reply half of callAppendEntries: where the leader turns after NotContain. */
  function NextIndexAfter(l: Log, snap: nat, next: nat, r: Reply): nat
    requires snap <= |l| && next >= 1
  {
    if r.xTerm == 0 && r.xLen != 0 then r.xLen
    else if FirstOf(l, snap, r.xTerm).Some? then
      match BehindLastOf(l, snap, r.xTerm)
      case None => next - 1
      case Some(e) => e.index
    else r.xIndex
  }

  /** Requests carry the entries from prevIndex + 1 on. */
  predicate Follows(m: Message)
    requires m.AppendRequest?
  {
    forall k :: 0 <= k < |m.entries| ==> m.entries[k].index == m.prevIndex + 1 + k
  }

  class Raft {
    const me: nat
    const peers: nat
    const persister: Persister
    const log: RaftLog
    var state: Role
    var votes: nat
    var term: nat
    var votedFor: Option<nat>
    var commit: nat
    var lastApplied: nat
    var nextIndex: seq<nat>
    var matchIndex: seq<nat>
    ghost var full: Log
    ghost var disk: Hard
    ghost var voters: set<nat>
    ghost var tally: Option<Tally>   // the collector of sendRequestVoteToAll, while it runs

    /** The fields fit together; a voter is counted once. */
    ghost predicate Fits()
      reads this, log
    {
      && log.Stands(full) && log.includedIndex <= commit
      && |matchIndex| == peers && |nextIndex| == peers && me < peers
      && votes == |voters| && (tally.Some? ==> voters <= tally.value.heard + {me})
    }

    ghost predicate Held()
      reads this, log, persister
    {
      Fits() && Saved(persister.raftstate, disk) && Indexed(disk.log) && disk.snap <= disk.commit
    }

    /** Whenever the lock is free, a leader's own nextIndex is behind its last entry. */
    ghost predicate Valid()
      reads this, log, persister
    {
      Held() && (state == Leader ==> nextIndex[me] == |full| + 1)
    }

    ghost function Abs(): Server
      reads this, log
    {
      Server(term, votedFor, state, voters, tally, full, log.includedIndex, commit, lastApplied, matchIndex, disk)
    }

    /** A first start: nothing on disk yet. */
    constructor (me: nat, peers: nat, persister: Persister)
      requires me < peers
      modifies persister
      ensures Valid() && fresh(log) && this.persister == persister
      ensures Abs() == InitialServer(peers)
    {
      this.me, this.peers, this.persister := me, peers, persister;
      log := new RaftLog();
      state, votes, term, votedFor, commit, lastApplied := Follower, 0, 0, None, 0, 0;
      nextIndex, matchIndex := seq(peers, i => 1), Zeros(peers);
      full, disk, voters, tally := [], Hard(0, None, 0, [], 0), {}, None;
      new;
      persist();
    }

    method persist()
      requires Fits()
      modifies this`disk, persister
      ensures Held() && Abs() == Persist(old(Abs())) && persister.snapshot == old(persister.snapshot)
    {
      disk := Hard(term, votedFor, commit, full, log.includedIndex);
      var data := persistRaftStateData();
      persister.SaveRaftState(data);
    }

    /** The bytes of the state as it is now. */
    method persistRaftStateData() returns (data: seq<Wire.byte>)
      requires log.Stands(full)
      ensures Saved(data, Hard(term, votedFor, commit, full, log.includedIndex))
    {
      var buffer := RaftWire.Marshal(RaftWire.RaftState(
        Some(RaftWire.HardState(term, VoteOnDisk(votedFor), commit)),
        Some(RaftWire.WireLog(EntriesOnDisk(log.entries), log.includedIndex, log.includedTerm))));
      return buffer[..];
    }

    /** State and snapshot in one write. */
    method persistWithSnapshot(snapshot: seq<Wire.byte>)
      requires Fits()
      modifies this`disk, persister
      ensures Held() && Abs() == Persist(old(Abs())) && persister.snapshot == snapshot
    {
      disk := Hard(term, votedFor, commit, full, log.includedIndex);
      var stateData := persistRaftStateData();
      persister.SaveStateAndSnapshot(stateData, snapshot);
    }

    method convertToFollower(newTerm: nat)
      requires Held() && newTerm >= term
      modifies this`term, this`state, this`votes, this`voters, this`votedFor, this`disk, persister
      ensures Valid() && Abs() == StepDown(old(Abs()), newTerm)
    {
      if newTerm > term {
        votedFor := None;
      }
      term, state, votes, voters := newTerm, Follower, 0, {};
      persist();
    }

    // ---------- elections ----------

    /** `newTerm` is the term in which the ticker was started, plus one; it may be old by now. */
    method launchElection(newTerm: nat)
      requires Valid()
      modifies this`term, this`state, this`votes, this`voters, this`tally, this`votedFor, this`disk, persister
      ensures Valid() && Abs() == E.Launched(me, old(Abs()), newTerm)
    {
      state, term, votedFor, votes := Candidate, newTerm, Some(me), 1;
      voters := {me};
      tally := Some(Tally(newTerm, {}));
      persist();
    }

    method RequestVote(m: Message) returns (granted: bool)
      requires Valid() && m.VoteRequest?
      modifies this`term, this`state, this`votes, this`voters, this`votedFor, this`disk, persister
      ensures Valid() && granted == E.Grants(old(Abs()), m)
      ensures Abs() == if m.term < old(term) then old(Abs())
                       else if granted then E.Voted(me, old(Abs()), m) else StepDown(old(Abs()), m.term)
    {
      if m.term < term {
        return false;
      }
      convertToFollower(m.term);
      var upToDate := log.NotUpToDateThan(m.lastIndex, m.lastTerm, full);
      if (votedFor == None || votedFor == Some(m.candidate)) && upToDate {
        votedFor := Some(m.candidate);
        persist();
        return true;
      }
      return false;
    }

    /** A granted vote comes in, in whatever role and term the server is by now. Each server is asked once. */
    method countVote(voter: nat) returns (elected: bool)
      requires Valid() && tally.Some? && voter != me && voter !in tally.value.heard
      modifies this`votes, this`voters, this`tally, this`state, this`nextIndex, this`matchIndex, this`disk, persister
      ensures Valid()
      ensures var y := Counted(old(Abs()), voter);
              && elected == IsMajority(y.votes, peers)
              && Abs() == if elected then E.Crowned(peers, y) else y
      ensures elected ==> forall i :: 0 <= i < peers ==> nextIndex[i] == |full| + 1
    {
      votes, voters := votes + 1, voters + {voter};
      tally := Some(Tally(tally.value.term, tally.value.heard + {voter}));
      elected := votes > peers / 2;
      if elected {
        convertToLeader();
      }
    }

    method convertToLeader()
      requires Held()
      modifies this`tally, this`state, this`nextIndex, this`matchIndex, this`disk, persister
      ensures Valid() && Abs() == E.Crowned(peers, old(Abs()))
      ensures forall i :: 0 <= i < peers ==> nextIndex[i] == |full| + 1
    {
      state, tally := Leader, None;
      persist();
      var last := log.LastEntry(full);
      nextIndex, matchIndex := seq(peers, i => last.index + 1), Zeros(peers);
    }

    // ---------- the leader ----------

    /** Ignored unless it follows the last entry; persisted before the lock is released. */
    method appendEntryToLog(entry: Entry)
      requires Held() && |full| + 2 < CompactedLog.TwoTo64
      modifies this`matchIndex, this`full, this`disk, log, persister
      ensures Held()
      ensures entry.index != old(|full|) + 1 ==> Abs() == old(Abs())
      ensures entry.index == old(|full|) + 1 ==>
        Abs() == Persist(old(Abs()).(
          log := old(full) + [entry],
          matchIndex := if state == Leader then old(matchIndex)[me := entry.index] else old(matchIndex)))
    {
      var n := log.Len(full);
      if entry.index == n + 1 {
        log.Append(entry, full);
        full := full + [entry];
        persist();
        if state == Leader {
          matchIndex := matchIndex[me := entry.index];
        }
      }
    }

    method Start(command: seq<int>) returns (index: nat, t: nat, isLeader: bool)
      requires Valid() && |full| + 2 < CompactedLog.TwoTo64
      modifies this`nextIndex, this`matchIndex, this`full, this`disk, log, persister
      ensures Valid() && isLeader == (state == Leader)
      ensures !isLeader ==> Abs() == old(Abs()) && (index, t) == (0, 0)
      ensures isLeader ==> Abs() == R.Appended(me, old(Abs()), command) && index == |full| && t == term
    {
      if state != Leader {
        return 0, 0, false;
      }
      index := nextIndex[me];
      nextIndex := nextIndex[me := index + 1];
      appendEntryToLog(Entry(term, index, command));
      return index, term, true;
    }

    /** newAppendEntriesArgs; None where nextIndex points behind the log's beginning or end. */
    method newAppendEntriesArgs(server: nat, isHeartBeat: bool) returns (r: Option<Message>)
      requires Valid() && server < peers && 1 <= nextIndex[server] < CompactedLog.TwoTo64 && commit <= |full|
      ensures r.Some? <==> log.includedIndex < nextIndex[server] <= |full| + 1 || (isHeartBeat && nextIndex[server] == 1)
      ensures r.Some? ==>
        var prev := nextIndex[server] - 1;
        && (log.includedIndex <= prev <= |full| ==>
              r.value == AppendRequest(term, me, prev, TermAt(full, prev), if isHeartBeat then [] else full[prev..],
                                       commit, TermAt(full, commit)))
    {
      var prev := nextIndex[server] - 1;
      var prevTerm := 0;
      if prev == log.includedIndex {
        prevTerm := log.includedTerm;
      } else {
        var e := log.EntryAt(prev, full);
        if e.None? {
          return None;
        }
        prevTerm := e.value.term;
      }
      var commitTerm := log.includedTerm;
      if commit > log.includedIndex {
        var e := log.EntryAt(commit, full);
        commitTerm := e.value.term;
      }
      var entries := [];
      if !isHeartBeat {
        var es := log.EntriesAfter(prev + 1, full);
        if es.None? {
          return None;
        }
        entries := es.value;
      }
      return Some(AppendRequest(term, me, prev, prevTerm, entries, commit, commitTerm));
    }

    /** Counts the servers that have matched `n`. */
    method checkIfEntryShouldBeCommitted(n: nat)
      requires Valid() && n <= |full|
      modifies this`commit
      ensures Valid() && Abs() == old(Abs()).(commit := LeaderCommit(old(Abs()), n))
    {
      if commit >= n {
        return;
      }
      var e := log.EntryAt(n, full);
      if e.value.term < term {
        return;
      }
      var count := 0;
      for i := 0 to |matchIndex|
        invariant commit == old(commit) && count == |Holders(matchIndex[..i], n)|
      {
        CountOneMore(matchIndex, i, n);
        if matchIndex[i] >= n {
          count := count + 1;
        }
      }
      assert matchIndex[..|matchIndex|] == matchIndex;
      if count > peers / 2 {
        commitEntryBeforeIndex(n);
      }
    }

    method commitEntryBeforeIndex(index: nat)
      modifies this`commit
      ensures commit == Max(old(commit), index)
    {
      if index <= commit {
        return;
      }
      commit := index;
    }

    /** A Success reply to a request that carried entries, in the leadership that sent it. */
    method onSuccess(server: nat, last: nat)
      requires Valid() && server < peers && server != me && last <= |full|
      modifies this`commit, this`matchIndex, this`nextIndex
      ensures Valid()
      ensures Abs() == (var y := old(Abs()).(matchIndex := old(matchIndex)[server := last]);
                        y.(commit := LeaderCommit(y, last)))
      ensures nextIndex == old(nextIndex)[server := last + 1]
    {
      nextIndex := nextIndex[server := last + 1];
      matchIndex := matchIndex[server := last];
      checkIfEntryShouldBeCommitted(last);
    }

    method onNotContain(server: nat, r: Reply)
      requires Valid() && server < peers && server != me && nextIndex[server] >= 1
      modifies this`nextIndex
      ensures Valid() && Abs() == old(Abs())
      ensures forall q :: 0 <= q < peers && q != server ==> nextIndex[q] == old(nextIndex[q])
      ensures Ascending(full) ==> nextIndex == old(nextIndex)[server := NextIndexAfter(full, log.includedIndex, old(nextIndex)[server], r)]
    {
      if r.xTerm == 0 && r.xLen != 0 {
        nextIndex := nextIndex[server := r.xLen];
        return;
      }
      var entry := log.FirstEntryAtTerm(r.xTerm, full);
      if entry.Some? {
        var last := log.LastEntryAtTerm(r.xTerm, full);
        nextIndex := nextIndex[server := if last.None? then nextIndex[server] - 1 else last.value.index];
      } else {
        nextIndex := nextIndex[server := r.xIndex];
      }
    }

    // ---------- the follower ----------

    method discardAfterAnd(index: nat)
      requires Held() && log.includedIndex < index <= |full|
      modifies this`full, this`disk, log, persister
      ensures Held() && Abs() == Persist(old(Abs()).(log := old(full)[..index - 1]))
    {
      var ok := log.DiscardAfterAnd(index, full);
      full := full[..index - 1];
      persist();
    }

    /** Step 3: the first entry of another term is discarded with all behind it. */
    method discardConflict(m: Message) returns (k: nat)
      requires Held() && m.AppendRequest? && Follows(m)
      requires log.includedIndex <= m.prevIndex <= |full|
      modifies this`full, this`disk, log, persister
      ensures Held() && k == FirstConflict(old(full), m.prevIndex, m.entries, 0)
      ensures Abs() == if k < |m.entries| then Persist(old(Abs()).(log := old(full)[..m.prevIndex + k])) else old(Abs())
    {
      k := 0;
      while k < |m.entries|
        invariant 0 <= k <= |m.entries| && Held() && Abs() == old(Abs())
        invariant FirstConflict(full, m.prevIndex, m.entries, 0) == FirstConflict(full, m.prevIndex, m.entries, k)
      {
        var entry := m.entries[k];
        var n := log.Len(full);
        if entry.index <= n {
          var own := log.EntryAt(entry.index, full);
          if entry.term != own.value.term {
            discardAfterAnd(entry.index);
            return;
          }
        }
        k := k + 1;
      }
    }

    /** Step 4: entries that do not follow the last one are ignored. */
    method appendEntries(m: Message)
      requires Valid() && m.AppendRequest? && Follows(m) && state != Leader
      requires log.includedIndex <= m.prevIndex <= |full| && |full| + |m.entries| + 2 < CompactedLog.TwoTo64
      modifies this`matchIndex, this`full, this`disk, log, persister
      ensures Valid() && state != Leader
      ensures Abs() == WithLog(old(Abs()), Extended(old(full), m.prevIndex, m.entries, |m.entries|))
    {
      ghost var l := full;
      for j := 0 to |m.entries|
        invariant Valid() && state != Leader && Abs() == WithLog(old(Abs()), Extended(l, m.prevIndex, m.entries, j))
      {
        ExtendedNext(l, m.prevIndex, m.entries, j);
        appendEntryToLog(m.entries[j]);
      }
    }

    /** Step 5: the CommitTerm rule. */
    method followCommit(m: Message)
      requires Valid() && m.AppendRequest? && m.leaderCommit < CompactedLog.TwoTo64
      modifies this`commit
      ensures Valid() && Abs() == old(Abs()).(commit := FollowerCommit(full, old(commit), m.leaderCommit, m.commitTerm))
    {
      if m.leaderCommit > commit {
        var last := log.LastEntry(full);
        var commitIndex := Min(m.leaderCommit, last.index);
        var e := log.EntryAt(commitIndex, full);
        if e.value.term != m.commitTerm {
          return;
        }
        commitEntryBeforeIndex(commitIndex);
      }
    }

    /** Steps 3 and 4 together. */
    method merge(m: Message)
      requires Valid() && m.AppendRequest? && Follows(m) && state != Leader
      requires log.includedIndex <= m.prevIndex <= |full| && |full| + |m.entries| + 2 < CompactedLog.TwoTo64
      modifies this`matchIndex, this`full, this`disk, log, persister
      ensures Valid() && state != Leader
      ensures Abs() == WithLog(old(Abs()), MergeLog(old(full), m.prevIndex, m.entries))
    {
      MergeInTwoSteps(full, m.prevIndex, m.entries);
      var k := discardConflict(m);
      appendEntries(m);
    }

    /** None: the source panics. A leader of this very term would be the sender (see RaftVotes.OneLeaderPerTerm). */
    method AppendEntries(m: Message) returns (r: Option<Reply>)
      requires Valid() && m.AppendRequest? && Follows(m)
      requires |full| + |m.entries| + 2 < CompactedLog.TwoTo64 && m.prevIndex < CompactedLog.TwoTo64 && m.leaderCommit < CompactedLog.TwoTo64
      requires m.term == term ==> state != Leader
      modifies this, log, persister
      ensures Valid() && (Ascending(old(full)) ==> r == ReplyTo(old(Abs()), m))
      ensures var x := old(Abs());
              Abs() == if m.term < x.term then x
                       else var y := R.Listening(x, m);
                         if Contains(y, m.prevIndex, m.prevTerm) then Accept(y, m) else y
    {
      var t := term;
      if m.term < t {
        return Some(Reply(t, OldTerm, 0, 0, 0));
      }
      if m.term > t {
        convertToFollower(m.term);
      }
      if m.prevIndex < log.includedIndex {
        return Some(Reply(t, OldSnapshotReply, 0, 0, 0));
      }
      var n := log.Len(full);
      if m.prevIndex > n {
        return Some(Reply(t, NotContain, 0, 0, n + 1));
      }
      var prev := log.EntryAt(m.prevIndex, full);
      if prev.value.term != m.prevTerm {
        var fe := log.FirstEntryAtTerm(prev.value.term, full);
        return if fe.None? then None else Some(Reply(t, NotContain, prev.value.term, fe.value.index, 0));
      }
      merge(m);
      followCommit(m);
      return Some(Reply(t, Success, 0, 0, 0));
    }

    // ---------- snapshots, application, restart ----------

    /** False where the source panics: the index lies before the snapshot it has. An index behind the log
      * is only noted. */
    method Snapshot(index: nat, data: seq<Wire.byte>) returns (ok: bool)
      requires Valid() && index < CompactedLog.TwoTo64
      modifies this`commit, this`lastApplied, this`disk, log, persister
      ensures ok <==> index >= old(log.includedIndex)
      ensures ok ==> Valid() && persister.snapshot == data
      ensures ok ==>
        var x := old(Abs());
        Abs() == Persist(x.(snap := if index <= |full| then index else x.snap,
                            lastApplied := Max(x.lastApplied, index), commit := Max(x.commit, index)))
    {
      commit := Max(commit, index);
      lastApplied := Max(lastApplied, index);
      var last := log.LastEntry(full);
      if index <= last.index {
        var e := log.EntryAt(index, full);
        if e.None? {
          return false;
        }
        assert full == full[..index] + full[index..];
        ok := log.CompactForSnapshot(index, e.value.term, full, full[..index]);
        if !ok {
          return;
        }
      }
      persistWithSnapshot(data);
      return true;
    }

    /** None: the source panics, because the snapshot lies before its own. */
    method CondInstallSnapshot(lastIncludedTerm: nat, lastIncludedIndex: nat, data: seq<Wire.byte>, ghost covered: Log) returns (r: Option<bool>)
      requires Valid() && Indexed(covered) && lastIncludedIndex == |covered| && lastIncludedTerm == TermAt(covered, |covered|)
      requires state == Leader ==> |covered| <= |full|
      modifies this`commit, this`lastApplied, this`full, this`disk, log, persister
      ensures r.None? <==> !OldSnapshot(old(Abs()), covered) && |covered| < old(log.includedIndex)
      ensures r.Some? ==> Valid() && r.value == !OldSnapshot(old(Abs()), covered)
      ensures r == Some(false) ==> Abs() == old(Abs())
      ensures r == Some(true) ==> Abs() == Install(old(Abs()), covered) && persister.snapshot == data
    {
      if log.includedTerm > lastIncludedTerm {
        return Some(false);
      }
      if log.includedTerm == lastIncludedTerm && log.includedIndex >= lastIncludedIndex {
        return Some(false);
      }
      lastApplied := lastIncludedIndex;
      commit := Max(commit, lastIncludedIndex);
      var ok := log.CompactForSnapshot(lastIncludedIndex, lastIncludedTerm, full, covered);
      if !ok {
        return None;
      }
      full := if |covered| > |full| then covered else covered + full[|covered|..];
      persistWithSnapshot(data);
      return Some(true);
    }

    /** One turn of applyCommittedLogs: the entry handed to the service. */
    method applyCommitted() returns (r: Option<Entry>)
      requires Valid() && log.includedIndex <= lastApplied && commit <= |full|
      modifies this`lastApplied
      ensures Valid() && r.Some? == (old(lastApplied) < commit)
      ensures Abs() == if r.Some? then old(Abs()).(lastApplied := old(lastApplied) + 1) else old(Abs())
      ensures r.Some? ==> r.value == full[old(lastApplied)]
    {
      if lastApplied < commit {
        lastApplied := lastApplied + 1;
        r := log.EntryAt(lastApplied, full);
        return;
      }
      return None;
    }

    /** Make on what the persister holds: a restart at any point, from the bytes alone. */
    method Restart()
      requires Valid() && RaftWire.StateFits(OnDisk(disk)) && forall k :: 0 <= k < |disk.log| ==> BytesOnly(disk.log[k].data)
      modifies this, log, persister
      ensures Valid() && Abs() == Restarted(old(Abs()))
    {
      tally := None;
      readPersistRaftState();
      convertToFollower(term);
    }

    method readPersistRaftState()
      requires Held() && RaftWire.StateFits(OnDisk(disk)) && forall k :: 0 <= k < |disk.log| ==> BytesOnly(disk.log[k].data)
      modifies this`full, this`term, this`votedFor, this`commit, this`lastApplied, log
      ensures Held()
      ensures var h := disk;
              Abs() == old(Abs()).(term := h.term, votedFor := h.votedFor, log := h.log, snap := h.snap, commit := h.commit, lastApplied := h.snap)
    {
      var p := Restore(persister.ReadRaftState(), disk);
      full := disk.log;
      term, votedFor, commit := p.term, p.votedFor, p.commit;
      log.entries, log.includedIndex, log.includedTerm := p.entries, p.includedIndex, p.includedTerm;
      lastApplied := log.includedIndex;
    }
  }

  function ReplyTo(x: Server, m: Message): Option<Reply>
    requires m.AppendRequest? && x.snap <= |x.log|
  {
    if m.term < x.term then Some(Reply(x.term, OldTerm, 0, 0, 0))
    else if m.prevIndex < x.snap then Some(Reply(x.term, OldSnapshotReply, 0, 0, 0))
    else if !Contains(x, m.prevIndex, m.prevTerm) then NotContainReply(x.term, x.log, x.snap, m.prevIndex)
    else Some(Reply(x.term, Success, 0, 0, 0))
  }

  /** Cutting at the conflict and appending what is new is the merge. */
  lemma MergeInTwoSteps(l: Log, prev: nat, es: seq<Entry>)
    requires prev <= |l|
    ensures var k := FirstConflict(l, prev, es, 0);
            var base := if k < |es| then l[..prev + k] else l;
            && prev <= |base| && Extended(base, prev, es, |es|) == MergeLog(l, prev, es)
            && (k < |es| ==> base != l && MergeLog(l, prev, es) != base && MergeLog(l, prev, es) != l)
  {
    var k := FirstConflict(l, prev, es, 0);
    if k < |es| {
      assert es[k..|es|] == es[k..];
      assert MergeLog(l, prev, es)[prev + k] == es[k];
    } else {
      assert prev + |es| > |l| ==> es[|l| - prev..|es|] == es[|l| - prev..];
    }
  }

  /** The server once its log has become `l`, persisted if that is a change. */
  function WithLog(x: Server, l: Log): Server {
    if l == x.log then x else Persist(x.(log := l))
  }

  /** `l` with those of the first `j` entries after `prev` that it does not reach. */
  function Extended(l: Log, prev: nat, es: seq<Entry>, j: nat): Log
    requires prev <= |l| && j <= |es|
  {
    if prev + j <= |l| then l else l + es[|l| - prev..j]
  }

  lemma ExtendedNext(l: Log, prev: nat, es: seq<Entry>, j: nat)
    requires prev <= |l| && j < |es|
    ensures var a, b := Extended(l, prev, es, j), Extended(l, prev, es, j + 1);
            && |a| == Max(|l|, prev + j)
            && b == if prev + j + 1 == |a| + 1 then a + [es[j]] else a
  {
    if prev + j >= |l| {
      assert es[|l| - prev..j + 1] == es[|l| - prev..j] + [es[j]];
    }
  }

  lemma CountOneMore(ms: seq<nat>, i: nat, n: nat)
    requires i < |ms|
    ensures |Holders(ms[..i + 1], n)| == |Holders(ms[..i], n)| + if ms[i] >= n then 1 else 0
  {
    var a, b := Holders(ms[..i], n), Holders(ms[..i + 1], n);
    assert b == if ms[i] >= n then a + {i} else a;
  }
}
