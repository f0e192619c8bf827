/** The store of a server is a replay of its log, in the runs of Interleaving.dfy. */
module LearnerSafety {
  import opened Types
  import opened Handlers
  import opened Interleaving
  import opened Merging
  import Provenance

  function Entries(applied: seq<Learned>): (r: seq<Entry>)
    ensures |r| == |applied| && forall k :: 0 <= k < |r| ==> r[k] == applied[k].entry
  {
    seq(|applied|, k requires 0 <= k < |applied| => applied[k].entry)
  }

  /** The table is the replay of the applied entries, whose indices rise and stay at or below
      `lastApplied`; nothing was skipped exactly when the log reached every commit index. */
  ghost predicate LearnerOk(s: Server, l: Learner) {
    && s.lastApplied <= s.commitIndex
    && s.table == Replay(map[], Entries(l.applied))
    && (forall i, j :: 0 <= i < j < |l.applied| ==> l.applied[i].index < l.applied[j].index)
    && (forall k :: 0 <= k < |l.applied| ==> l.applied[k].index <= s.lastApplied)
    && |l.applied| <= s.lastApplied + 1
    && (l.reached <==> |l.applied| == s.lastApplied + 1)
    && (l.reached ==> forall k :: 0 <= k < |l.applied| ==> l.applied[k].index == k)
  }

  lemma ApplyKeepsLearner(s: Server, l: Learner)
    requires LearnerOk(s, l)
    ensures LearnerOk(ApplyCommitted(s), Learn(l, s))
  {
    var l' := Learn(l, s);
    assert Entries(l'.applied) == Entries(l.applied) + Ready(s);
    ReplayAppend(map[], Entries(l.applied), Ready(s));
  }

  /** Every other handler leaves the learner's part, and never lowers the commit index. */
  ghost predicate SameLearner(s: Server, s': Server) {
    s'.table == s.table && s'.lastApplied == s.lastApplied && s.commitIndex <= s'.commitIndex
  }

  lemma MovedKeepsLearner(s: Server, l: Learner, step: Step, votes: nat, n: nat)
    requires LearnerOk(s, l)
    ensures LearnerOk(Moved(s, step, votes, n), Taught(l, s, step))
  {
    if step.Apply? {
      ApplyKeepsLearner(s, l);
    } else if !step.Crash? {
      assert SameLearner(s, Moved(s, step, votes, n));
    }
  }

  ghost predicate Inv(y: System) {
    |y.learners| == |y.servers| && forall i :: 0 <= i < |y.servers| ==> LearnerOk(y.servers[i], y.learners[i])
  }

  lemma StepKeepsInv(y: System, who: nat, step: Step, y': System)
    requires Inv(y) && Next(y, who, step, y')
    ensures Inv(y')
  {
    MovedKeepsLearner(y.servers[who], y.learners[who], step, VotesFor(y, step), |y.servers|);
  }

  lemma {:induction false} RunInv(run: seq<System>, moves: seq<(nat, Step)>, lead: seq<bool>, i: nat)
    requires IsRun(run, moves, lead) && i < |run|
    ensures Inv(run[i])
  {
    if i > 0 {
      RunInv(run, moves, lead, i - 1);
      StepKeepsInv(run[i - 1], moves[i - 1].0, moves[i - 1].1, run[i]);
    }
  }

  /** In every run, `lastApplied` stays at or below the commit index, no index is applied twice
      and indices are applied in rising order, the table is the replay of the applied entries,
      and every index up to `lastApplied` was applied if and only if the commit index was below
      the log length each time there was something to apply. */
  lemma StoreIsReplay(run: seq<System>, moves: seq<(nat, Step)>, lead: seq<bool>, t: nat, who: nat)
    requires IsRun(run, moves, lead) && t < |run| && who < |run[t].servers|
    ensures |run[t].learners| == |run[t].servers|
    ensures
      var s, applied := run[t].servers[who], run[t].learners[who].applied;
      && s.lastApplied <= s.commitIndex
      && s.table == Replay(map[], Entries(applied))
      && (forall i, j :: 0 <= i < j < |applied| ==> applied[i].index < applied[j].index <= s.lastApplied)
      && (run[t].learners[who].reached <==>
            |applied| == s.lastApplied + 1 && forall k :: 0 <= k < |applied| ==> applied[k].index == k)
  {
    RunInv(run, moves, lead, t);
  }

  /** In every run, a server's store has for each key what the last applied entry that puts or
      deletes it says: the value of a Put, or nothing after a Delete, or if there is none. */
  lemma StoreHoldsLast(run: seq<System>, moves: seq<(nat, Step)>, lead: seq<bool>, t: nat, who: nat, key: string)
    requires IsRun(run, moves, lead) && t < |run| && who < |run[t].servers|
    ensures |run[t].learners| == |run[t].servers|
    ensures
      var table, applied := run[t].servers[who].table, Entries(run[t].learners[who].applied);
      && (UnnamedFrom(applied, key, 0) ==> key !in table)
      && (forall i: nat :: NamedLast(applied, i, key) ==>
            if applied[i].op == Operation.Put then key in table && table[key] == applied[i].value else key !in table)
  {
    StoreIsReplay(run, moves, lead, t, who);
    var applied := Entries(run[t].learners[who].applied);
    if UnnamedFrom(applied, key, 0) {
      ReplayKeeps(map[], applied, key);
    }
    forall i: nat | NamedLast(applied, i, key)
      ensures
        var table := run[t].servers[who].table;
        if applied[i].op == Operation.Put then key in table && table[key] == applied[i].value else key !in table
    {
      ReplayTakesLast(map[], applied, i, key);
    }
  }

  ghost predicate FromPuts(table: Table, puts: set<(string, string)>) {
    forall k <- table :: (k, table[k]) in puts
  }

  lemma {:induction false} ReplayOfPuts(table: Table, entries: seq<Entry>, puts: set<(string, string)>)
    requires FromPuts(table, puts) && forall e <- entries :: Provenance.ClientWrite(e, puts)
    ensures FromPuts(Replay(table, entries), puts)
    decreases |entries|
  {
    if entries != [] {
      assert Provenance.ClientWrite(entries[0], puts);
      ReplayOfPuts(Applied(table, entries[0]), entries[1..], puts);
    }
  }

  /** In every run, each value a server stores for a key came from a client Put of that pair. */
  lemma StoredValuesWerePut(run: seq<System>, moves: seq<(nat, Step)>, lead: seq<bool>, t: nat, who: nat, key: string)
    requires IsRun(run, moves, lead) && t < |run| && who < |run[t].servers|
    requires key in run[t].servers[who].table
    ensures (key, run[t].servers[who].table[key]) in run[t].puts
  {
    RunInv(run, moves, lead, t);
    Provenance.RunInv(run, moves, lead, t);
    var y := run[t];
    var entries := Entries(y.learners[who].applied);
    assert Provenance.LearnedOk(y.learners[who], y.proposed);
    forall e <- entries
      ensures Provenance.ClientWrite(e, y.puts)
    {
      var k :| 0 <= k < |entries| && entries[k] == e;
      assert Supplied(y.learners[who].applied[k].entry, y.proposed);
    }
    ReplayOfPuts(map[], entries, y.puts);
  }
}
