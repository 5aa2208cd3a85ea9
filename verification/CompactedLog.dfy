/** raft/raft_log.go: the log that a server holds once its beginning has been compacted away, proved
  * against the log without compaction that RaftProtocol works with. */
module CompactedLog {
  import opened Wrappers
  import opened RaftProtocol

  const TwoTo64: nat := 0x1_0000_0000_0000_0000

  /** Entry i is at position i - 1, and indexes are uint64s. */
  predicate Indexed(l: Log) {
    |l| < TwoTo64 - 1 && forall i :: 0 <= i < |l| ==> l[i].index == i + 1
  }

  predicate Ascending(l: Log) {
    forall i, j :: 0 <= i <= j < |l| ==> l[i].term <= l[j].term
  }

  /** The first index after `from` whose term is at least `term`, or |l| + 1. */
  function FirstAtLeast(l: Log, from: nat, term: nat): (i: nat)
    requires from <= |l|
    ensures from < i <= |l| + 1
    ensures forall p :: from <= p < i - 1 ==> l[p].term < term
    ensures i <= |l| ==> l[i - 1].term >= term
    decreases |l| - from
  {
    if from == |l| || l[from].term >= term then from + 1 else FirstAtLeast(l, from + 1, term)
  }

  /** The first retained entry of a term. */
  function FirstOf(l: Log, snap: nat, term: nat): Option<Entry>
    requires snap <= |l|
  {
    var i := FirstAtLeast(l, snap, term);
    if i <= |l| && l[i - 1].term == term then Some(l[i - 1]) else None
  }

  /** LastEntryAtTerm as coded: the entry behind the last one of the term, if there is one. */
  function BehindLastOf(l: Log, snap: nat, term: nat): Option<Entry>
    requires snap <= |l|
  {
    var i := FirstAtLeast(l, snap, term + 1);
    if snap + 1 < i <= |l| && l[i - 2].term == term then Some(l[i - 1]) else None
  }

  class RaftLog {
    var entries: seq<Entry>
    var includedIndex: nat
    var includedTerm: nat

    /** The retained part of `full`, and what is known of the rest. */
    ghost predicate Stands(full: Log)
      reads this
    {
      && Indexed(full)
      && includedIndex <= |full| && includedTerm == TermAt(full, includedIndex)
      && entries == full[includedIndex..]
    }

    constructor ()
      ensures Stands([]) && includedIndex == 0
    {
      entries, includedIndex, includedTerm := [], 0, 0;
    }

    /** uint64 arithmetic: compacting at includedIndex wraps. */
    function SliceIndex(logIndex: nat): nat
      reads this`includedIndex
    {
      (logIndex - includedIndex - 1) % TwoTo64
    }

    /** None where the source panics. */
    method EntryAt(index: nat, ghost full: Log) returns (r: Option<Entry>)
      requires Stands(full) && index < TwoTo64
      ensures r.Some? <==> index == 0 || includedIndex <= index <= |full|
      ensures r.Some? ==> r.value.term == TermAt(full, index) && r.value.index == index
      ensures r.Some? && includedIndex < index ==> r.value == full[index - 1]
    {
      if index == 0 {
        return Some(Entry(0, 0, []));
      }
      if index == includedIndex {
        return Some(Entry(includedTerm, includedIndex, []));
      }
      var i := SliceIndex(index);
      if i >= |entries| {
        return None;
      }
      return Some(entries[i]);
    }

    method LastEntry(ghost full: Log) returns (e: Entry)
      requires Stands(full)
      ensures e.term == TermAt(full, |full|) && e.index == |full|
    {
      if |entries| > 0 {
        return entries[|entries| - 1];
      }
      return Entry(includedTerm, includedIndex, []);
    }

    method Len(ghost full: Log) returns (n: nat)
      requires Stands(full)
      ensures n == |full|
    {
      var e := LastEntry(full);
      return e.index;
    }

    /** An entry that does not follow the last one is ignored. */
    method Append(entry: Entry, ghost full: Log)
      requires Stands(full) && |full| + 1 < TwoTo64 - 1
      modifies this`entries
      ensures Stands(if entry.index == |full| + 1 then full + [entry] else full)
    {
      var n := Len(full);
      if entry.index == n + 1 {
        entries := entries + [entry];
      }
    }

    /** The entries from `index` on. */
    method EntriesAfter(index: nat, ghost full: Log) returns (r: Option<seq<Entry>>)
      requires Stands(full) && index < TwoTo64
      ensures r == if includedIndex < index <= |full| + 1 then Some(full[index - 1..]) else None
    {
      var i := SliceIndex(index);
      if i > |entries| {
        return None;
      }
      return Some(entries[i..]);
    }

    /** Compacts up to `index`; false where the source panics. `covered` is the log that the snapshot at
      * `index` covers: a beginning of the own one for Snapshot, the leader's for CondInstallSnapshot. */
    method CompactForSnapshot(index: nat, term: nat, ghost full: Log, ghost covered: Log) returns (ok: bool)
      requires Stands(full) && Indexed(covered) && index == |covered| && term == TermAt(covered, index)
      modifies this
      ensures ok <==> index >= old(includedIndex)
      ensures ok ==> includedIndex == index
      ensures ok ==> Stands(if index > |full| then covered else covered + full[index..])
      ensures !ok ==> Stands(full) && includedIndex == old(includedIndex)
    {
      var n := Len(full);
      if index > n {
        entries := [];
      } else {
        var i := (SliceIndex(index) + 1) % TwoTo64;
        if i > |entries| {
          return false;
        }
        entries := entries[i..];
      }
      includedIndex, includedTerm := index, term;
      return true;
    }

    /** Drops the entry at `index` and all behind it; false where the source panics. */
    method DiscardAfterAnd(index: nat, ghost full: Log) returns (ok: bool)
      requires Stands(full) && index < TwoTo64
      modifies this`entries
      ensures ok <==> includedIndex < index <= |full| + 1
      ensures Stands(if ok then full[..index - 1] else full)
    {
      var i := SliceIndex(index);
      if i > |entries| {
        return false;
      }
      entries := entries[..i];
      return true;
    }

    /** sort.Search over the retained entries for the first one whose term is at least `term`; it finds some
      * place where the terms step over `term`, and the first one if they ascend. */
    method Search(term: nat, ghost full: Log) returns (k: nat)
      requires Stands(full)
      ensures k <= |entries|
      ensures (k > 0 ==> entries[k - 1].term < term) && (k < |entries| ==> entries[k].term >= term)
      ensures Ascending(full) ==> includedIndex + k + 1 == FirstAtLeast(full, includedIndex, term)
    {
      var i, j := 0, |entries|;
      while i < j
        invariant 0 <= i <= j <= |entries|
        invariant (i > 0 ==> entries[i - 1].term < term) && (j < |entries| ==> entries[j].term >= term)
        invariant Ascending(full) ==> includedIndex + i + 1 <= FirstAtLeast(full, includedIndex, term) <= includedIndex + j + 1
      {
        var h := (i + j) / 2;
        assert entries[h] == full[includedIndex + h];
        if entries[h].term < term {
          i := h + 1;
        } else {
          j := h;
        }
      }
      return i;
    }

    method FirstEntryAtTerm(term: nat, ghost full: Log) returns (r: Option<Entry>)
      requires Stands(full)
      ensures r.Some? ==> r.value in entries && r.value.term == term
      ensures Ascending(full) ==> r == FirstOf(full, includedIndex, term)
    {
      var k := Search(term, full);
      if k < |entries| && entries[k].term == term {
        return Some(entries[k]);
      }
      return None;
    }

    method LastEntryAtTerm(term: nat, ghost full: Log) returns (r: Option<Entry>)
      requires Stands(full)
      ensures r.Some? ==> r.value in entries && r.value.term > term
      ensures Ascending(full) ==> r == BehindLastOf(full, includedIndex, term)
    {
      var k := Search(term + 1, full);
      if 0 < k < |entries| && entries[k - 1].term == term {
        return Some(entries[k]);
      }
      return None;
    }

    method NotUpToDateThan(index: nat, term: nat, ghost full: Log) returns (r: bool)
      requires Stands(full)
      ensures r == NotUpToDate(full, index, term)
    {
      var last := LastEntry(full);
      if last.term < term {
        return true;
      }
      if last.term == term && last.index <= index {
        return true;
      }
      return false;
    }
  }
}
