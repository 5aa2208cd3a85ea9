/** What live shard migration promises, stated for every run of every deployment. */
module MigrationTheorems {
  import opened Wrappers
  import opened Sessions
  import opened StateMachines
  import opened Migration
  import opened MigrationInvariant
  import opened MigrationCommit
  import opened MigrationSafety

  lemma RunOwnership(d: Deployment, steps: seq<Step>, w: World)
    requires Sound(d) && Run(d, steps) == Some(w)
    ensures GroupsOk(d, w.history) && ChainOk(d, w.history)
  {
    RunKeeps(d, steps);
  }

  lemma RunHops(d: Deployment, steps: seq<Step>, w: World)
    requires Sound(d) && Run(d, steps) == Some(w)
    ensures GroupsOk(d, w.history) && ChainOk(d, w.history) && HopsOk(w.history)
  {
    RunKeeps(d, steps);
  }

  /** At any moment at most one group answers clients on a shard. */
  lemma ExclusiveService(d: Deployment, steps: seq<Step>, g: int, k: int, s: int)
    requires Sound(d) && Run(d, steps).Some?
    requires var w := Run(d, steps).value;
             && g in w.history && w.history[g] != [] && CheckShard(g, Last(w, g), s)
             && k in w.history && w.history[k] != [] && CheckShard(k, Last(w, k), s)
    ensures g == k
  {
    var w := Run(d, steps).value;
    RunOwnership(d, steps, w);
    assert Last(w, g) == LastOf(w.history, g) && Last(w, k) == LastOf(w.history, k);
    OneServer(d, w.history, g, k, s);
  }

  lemma {:induction false} ShardOfStore(d: Deployment, e: seq<Event>, key: string)
    requires KeyedEvents(e)
    ensures Lookup(Store(e), key) == Lookup(Contents(d, e, d.hash(key)), key)
  {
    if e == [] {
    } else {
      ShardOfStore(d, e[..|e| - 1], key);
    }
  }

  /** The whole system is one map: the i-th executed request is answered from exactly the puts and
    * appends executed before it, on whatever groups; migration is invisible. */
  lemma AnswersFromOneStore(d: Deployment, steps: seq<Step>, i: nat)
    requires Sound(d) && Run(d, steps).Some? && i < |Run(d, steps).value.events|
    ensures var e := Run(d, steps).value.events; e[i].reply == Answer(Store(e[..i]), e[i].command)
  {
    RunKeeps(d, steps);
    var e := Run(d, steps).value.events;
    assert KeyedEvents(e[..i]);
    if e[i].command.GET? {
      ShardOfStore(d, e[..i], e[i].command.key);
    }
  }

  /** What a reader of `key` must find after these requests: nothing before the first write, then the value put
    * last with all that has been appended since. */
  function LastValue(e: seq<Event>, key: string): Option<string> {
    if e == [] then None
    else
      var n := |e| - 1;
      var before := LastValue(e[..n], key);
      match e[n].command
      case PUT(k, value) => if k == key then Some(value) else before
      case APPEND(k, value) =>
        if k != key then before else if before == None then Some(value) else Some(before.value + value)
      case _ => before
  }

  lemma {:induction false} StoreHoldsLastValue(e: seq<Event>, key: string)
    ensures key in Store(e) <==> LastValue(e, key).Some?
    ensures key in Store(e) ==> LastValue(e, key) == Some(Store(e)[key])
  {
    if e != [] {
      StoreHoldsLastValue(e[..|e| - 1], key);
      assert forall v: string :: "" + v == v;
    }
  }

  /** Every read of every run, on whatever group, answers with the last value of its key, or that there is none;
    * every write answers OK. */
  lemma ReadsAnswerTheLastValue(d: Deployment, steps: seq<Step>, i: nat)
    requires Sound(d) && Run(d, steps).Some? && i < |Run(d, steps).value.events|
    ensures var e := Run(d, steps).value.events;
            && (e[i].command.GET? && LastValue(e[..i], e[i].command.key).None? ==> e[i].reply == Reply(ERR_NO_KEY, ""))
            && (e[i].command.GET? && LastValue(e[..i], e[i].command.key).Some? ==>
                  e[i].reply == Reply(OK, LastValue(e[..i], e[i].command.key).value))
            && (e[i].command.PUT? || e[i].command.APPEND? ==> e[i].reply == Reply(OK, ""))
  {
    var e := Run(d, steps).value.events;
    AnswersFromOneStore(d, steps, i);
    if e[i].command.GET? {
      StoreHoldsLastValue(e[..i], e[i].command.key);
    }
  }

  predicate Writes(c: Command, key: string) {
    (c.PUT? || c.APPEND?) && c.key == key
  }

  lemma {:induction false} NoWriteSince(e: seq<Event>, key: string, j: nat, i: nat)
    requires j <= i <= |e| && forall k :: j <= k < i ==> !Writes(e[k].command, key)
    ensures LastValue(e[..i], key) == LastValue(e[..j], key)
    decreases i
  {
    if j < i {
      NoWriteSince(e, key, j, i - 1);
      assert e[..i][..i - 1] == e[..i - 1];
    }
  }

  /** Read your writes: a read behind a put of its key, with no other write of the key between, answers the value
    * that was put; behind an append, what a read would have answered before it, and what was appended. */
  lemma ReadBehindWrite(d: Deployment, steps: seq<Step>, j: nat, i: nat, key: string)
    requires Sound(d) && Run(d, steps).Some? && j < i < |Run(d, steps).value.events|
    requires var e := Run(d, steps).value.events;
             && Writes(e[j].command, key) && e[i].command == GET(key)
             && forall k :: j < k < i ==> !Writes(e[k].command, key)
    ensures var e := Run(d, steps).value.events;
            && (e[j].command.PUT? ==> e[i].reply == Reply(OK, e[j].command.value))
            && (e[j].command.APPEND? ==>
                  e[i].reply == Reply(OK, if LastValue(e[..j], key).Some? then LastValue(e[..j], key).value + e[j].command.value
                                          else e[j].command.value))
  {
    var e := Run(d, steps).value.events;
    ReadsAnswerTheLastValue(d, steps, i);
    NoWriteSince(e, key, j + 1, i);
    assert e[..j + 1][..j] == e[..j];
  }

  /** Only a committed client command changes the store; every other step leaves it as it is. */
  lemma OnlyClientsChangeTheStore(d: Deployment, steps: seq<Step>, step: Step)
    requires Sound(d) && Run(d, steps).Some? && Enabled(d, Run(d, steps).value, step)
    ensures var w, v := Run(d, steps).value, Take(d, Run(d, steps).value, step);
            Store(v.events) == Store(w.events)
            || (step.Commit? && (step.args.command.PUT? || step.args.command.APPEND?)
                && v.events == w.events + [Event(step.g, step.args.header, step.args.command, Reply(OK, ""))]
                && Store(v.events) == Effect(Store(w.events), step.args.command))
  {
    var w, v := Run(d, steps).value, Take(d, Run(d, steps).value, step);
    if step.Commit? {
      var more := EventsOf(d, step.g, Last(w, step.g), step.args);
      if more == [] {
        assert v.events == w.events;
      } else {
        assert v.events[..|v.events| - 1] == w.events;
      }
    }
  }

  /** Over all groups, the requests of a client executed on a shard have increasing numbers: each
    * takes effect at most once, however often it is sent and wherever the shard has moved. */
  lemma AtMostOnce(d: Deployment, steps: seq<Step>, i: nat, j: nat, s: int)
    requires Sound(d) && Run(d, steps).Some? && i < j < |Run(d, steps).value.events|
    requires var e := Run(d, steps).value.events;
             EventOn(d, e[i], s) && EventOn(d, e[j], s) && e[i].header.id == e[j].header.id
    ensures var e := Run(d, steps).value.events; e[i].header.seqNum < e[j].header.seqNum
  {
    RunKeeps(d, steps);
  }

  /** Whatever a group adopts is what the former owner had frozen; a reply read after the wipe is never adopted. */
  lemma AdoptionIsExact(d: Deployment, steps: seq<Step>, g: int, j: nat, n: int, s: int, i: nat)
    requires Sound(d) && Run(d, steps).Some?
    requires var h := Run(d, steps).value.history;
             && AdoptedAt(h, g, j, n, s)
             && Owner(d, n - 1, s) in h && i < |h[Owner(d, n - 1, s)]|
             && var x := h[Owner(d, n - 1, s)][i];
                x.current.num == n && s in x.shards && x.shards[s].status == BE_PULLING
    ensures var h := Run(d, steps).value.history; h[g][j].shards[s].KV == h[Owner(d, n - 1, s)][i].shards[s].KV
  {
    RunKeeps(d, steps);
  }

  /** Once a source has stopped holding a shard back, the new owner's log contains the adoption of
    * exactly the contents that were held back. */
  lemma WipedOnlyAfterAdoption(d: Deployment, steps: seq<Step>, a: int, i: nat, s: int) returns (j: nat)
    requires Sound(d) && Run(d, steps).Some?
    requires var h := Run(d, steps).value.history;
             && a in h && i + 1 < |h[a]|
             && s in h[a][i].shards && h[a][i].shards[s].status == BE_PULLING
             && s in h[a][i + 1].shards && h[a][i + 1].shards[s].status != BE_PULLING
    ensures var h := Run(d, steps).value.history;
            var n := h[a][i].current.num;
            && AdoptedAt(h, Owner(d, n, s), j, n, s)
            && h[Owner(d, n, s)][j].shards[s].KV == h[a][i].shards[s].KV
  {
    RunKeeps(d, steps);
    j := AdoptionBeforeWipe(d, Run(d, steps).value.history, a, i, s);
  }

  lemma AdoptionBeforeWipe(d: Deployment, h: History, a: int, i: nat, s: int) returns (j: nat)
    requires GroupsOk(d, h) && WipedOk(d, h) && HopsOk(h) && ConservedOk(d, h)
    requires a in h && i + 1 < |h[a]|
    requires s in h[a][i].shards && h[a][i].shards[s].status == BE_PULLING
    requires s in h[a][i + 1].shards && h[a][i + 1].shards[s].status != BE_PULLING
    ensures var n := h[a][i].current.num;
            && AdoptedAt(h, Owner(d, n, s), j, n, s)
            && h[Owner(d, n, s)][j].shards[s].KV == h[a][i].shards[s].KV
  {
    var n := h[a][i].current.num;
    WipeIsAcquired(d, h, a, i, s);
    j :| AdoptedAt(h, Owner(d, n, s), j, n, s);
    assert FrozenIs(h, a, n, s, h[Owner(d, n, s)][j].shards[s].KV);
  }

  lemma WipeIsAcquired(d: Deployment, h: History, a: int, i: nat, s: int)
    requires GroupsOk(d, h) && WipedOk(d, h) && HopsOk(h) && ConservedOk(d, h)
    requires a in h && i + 1 < |h[a]|
    requires s in h[a][i].shards && h[a][i].shards[s].status == BE_PULLING
    requires s in h[a][i + 1].shards && h[a][i + 1].shards[s].status != BE_PULLING
    ensures var n := h[a][i].current.num;
            && AdoptedSometime(h, Owner(d, n, s), n, s) && Owner(d, n - 1, s) == a
  {
    var n := h[a][i].current.num;
    assert StateOk(d, a, h[a][i]) && StateOk(d, a, h[a][i + 1]);
    assert h[a][(i + 1) - 1] == h[a][i];
    assert h[a][i + 1].current.num == n;
    assert Lost(d, a, n, s);
    assert Acquired(d, h, n, s);
  }

  /** A group enters the next configuration only with all shards SERVING, although only the proposer
    * looked; so a shard it is PULLING or cleaning up names its true former owner. */
  lemma ReconfiguresOnlyWhenSettled(d: Deployment, steps: seq<Step>, g: int, i: nat)
    requires Sound(d) && Run(d, steps).Some?
    requires var h := Run(d, steps).value.history; g in h && i + 1 < |h[g]| && h[g][i + 1].current != h[g][i].current
    ensures var x, y := Run(d, steps).value.history[g][i], Run(d, steps).value.history[g][i + 1];
            && AllServing(x)
            && y.current.num == x.current.num + 1 >= 1
            && y.current == d.configs(y.current.num) && y.last == Some(x.current)
  {
    var h: History := Run(d, steps).value.history;
    RunHops(d, steps, Run(d, steps).value);
    assert StateOk(d, g, h[g][i]) && StateOk(d, g, h[g][i + 1]);
    assert h[g][(i + 1) - 1] == h[g][i];
  }

  /** Hence a shard that is PULLING or GC was the property of the owner its last configuration names,
    * which has had its data and has moved on: requests go to the true source. */
  lemma LastConfigNamesTheTrueSource(d: Deployment, steps: seq<Step>, g: int, i: nat, s: int)
    requires Sound(d) && Run(d, steps).Some?
    requires var h := Run(d, steps).value.history;
             && g in h && i < |h[g]| && s in h[g][i].shards
             && (h[g][i].shards[s].status == PULLING || h[g][i].shards[s].status == GC)
    ensures var h, x := Run(d, steps).value.history, Run(d, steps).value.history[g][i];
            && x.last.Some? && 0 <= s < |x.last.value.shards|
            && var source := x.last.value.shards[s];
               && source == Owner(d, x.current.num - 1, s) != g
               && (x.shards[s].status == GC ==> Acquired(d, h, x.current.num - 1, s) && Reached(h, source, x.current.num))
  {
    RunOwnership(d, steps, Run(d, steps).value);
    SourceOfWaiting(d, Run(d, steps).value.history, g, i, s);
  }

  lemma SourceOfWaiting(d: Deployment, h: History, g: int, i: nat, s: int)
    requires Sound(d) && GroupsOk(d, h) && ChainOk(d, h) && g in h && i < |h[g]| && s in h[g][i].shards
    requires h[g][i].shards[s].status == PULLING || h[g][i].shards[s].status == GC
    ensures var x := h[g][i];
            && x.last.Some? && 0 <= s < |x.last.value.shards|
            && var source := x.last.value.shards[s];
               && source == Owner(d, x.current.num - 1, s) != g
               && (x.shards[s].status == GC ==> Acquired(d, h, x.current.num - 1, s) && Reached(h, source, x.current.num))
  {
    var x := h[g][i];
    assert StateOk(d, g, x);
    if x.shards[s].status == GC {
      assert HoldsAt(h[g][i], (x.current.num - 1) + 1, s);
      assert Acquired(d, h, (x.current.num - 1) + 1, s);
    }
  }

  /** Any proposal, committed at any time, applies: no replica ever panics in apply. */
  lemma NoPanic(d: Deployment, steps: seq<Step>, g: int, a: Args)
    requires Sound(d) && Run(d, steps).Some? && (g, a) in Run(d, steps).value.proposed
    ensures var w := Run(d, steps).value;
            g in w.history && w.history[g] != [] && Apply(d.hash, g, Last(w, g), a).Some?
  {
    RunKeeps(d, steps);
    ProposalsApply(d, Run(d, steps).value, g, a);
  }
}
