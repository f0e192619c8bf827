/** Which entries a leader's learner applies, in the runs of whole rounds of Failover.dfy. */
module LeaderLearns {
  import opened Types
  import opened Persistence
  import opened Handlers
  import opened Merging
  import opened Failover
  import FailoverSafety

  /** Server `l` runs and leads from state `i` to state `j`. */
  ghost predicate LeadsThrough(run: seq<Cluster>, l: nat, i: nat, j: nat) {
    forall m :: i <= m <= j && m < |run| ==>
      l < |run[m].servers| && l !in run[m].stopped && run[m].servers[l].role == Leader
  }

  /** One turn of the learner of `s` applies `e`, in its place of the sequence. */
  ghost predicate Applies(s: Server, e: Entry) {
    s.lastApplied < e.index <= s.lastApplied + |Ready(s)| && Ready(s)[e.index - s.lastApplied - 1] == e
  }

  ghost predicate AppliesAt(run: seq<Cluster>, steps: seq<Step>, k: nat, l: nat, e: Entry) {
    k < |steps| && k < |run| && l < |run[k].servers| && steps[k] == Learn(l) && Applies(run[k].servers[l], e)
  }

  /** A turn applies an entry of the log exactly when `lastApplied` passes its index. */
  lemma TurnApplies(s: Server, e: Entry)
    requires HasSlot(s.disk.mem, e)
    ensures Applies(s, e) <==> s.lastApplied < e.index <= ApplyCommitted(s).lastApplied
    ensures s.lastApplied <= ApplyCommitted(s).lastApplied
  {
    if s.lastApplied < s.commitIndex {
      var lo, hi := s.lastApplied + 1, Min(s.commitIndex + 1, |s.disk.mem.log|);
      assert lo < hi ==> Ready(s) == s.disk.mem.log[lo..hi];
    }
  }

  lemma ElectKeepsLearner(s: Server, replies: seq<PrepareReply>, n: nat)
    ensures BeginElection(s).0.lastApplied == s.lastApplied && Election(s, replies, n).0.lastApplied == s.lastApplied
  {
  }

  /** Only its own learner or a restart moves a server's `lastApplied`. */
  lemma StepKeepsApplied(c: Cluster, step: Step, c': Cluster, l: nat)
    requires Next(c, step, c') && l < |c.servers| && step != Learn(l) && step != Crash(l)
    ensures l < |c'.servers| && c'.servers[l].lastApplied == c.servers[l].lastApplied
  {
    match step {
      case Elect(who, reached, answered) =>
        var b := BeginElection(c.servers[who]).1;
        if b.Some? {
          ElectKeepsLearner(c.servers[who], PrepareReplies(c.servers, b.value, answered), |c.servers|);
        }
      case _ =>
    }
  }

  /** A leader that still leads after a step has applied more by that step, or the same. */
  lemma LeaderStep(c: Cluster, step: Step, c': Cluster, l: nat, e: Entry)
    requires Next(c, step, c') && l < |c.servers| && l < |c'.servers| && c'.servers[l].role == Leader
    requires HasSlot(c.servers[l].disk.mem, e)
    ensures c.servers[l].lastApplied <= c'.servers[l].lastApplied
    ensures c.servers[l].lastApplied < e.index <= c'.servers[l].lastApplied <==>
      step == Learn(l) && Applies(c.servers[l], e)
  {
    if step == Learn(l) {
      TurnApplies(c.servers[l], e);
    } else {
      assert step != Crash(l);
      StepKeepsApplied(c, step, c', l);
    }
  }

  lemma RunStep(run: seq<Cluster>, steps: seq<Step>, i: nat, k: nat, l: nat, e: Entry)
    requires IsRun(run, steps) && i <= k < |steps| && e in run[i].chosen && LeadsThrough(run, l, k, k + 1)
    ensures run[k].servers[l].lastApplied <= run[k + 1].servers[l].lastApplied
    ensures run[k].servers[l].lastApplied < e.index <= run[k + 1].servers[l].lastApplied <==>
      AppliesAt(run, steps, k, l, e)
  {
    FailoverSafety.ChosenSurvives(run, steps, i, k, l, e);
    assert HasSlot(run[k].servers[l].disk.mem, e);
    StepOfRun(run, steps, k);
    LeaderStep(run[k], steps[k], run[k + 1], l, e);
  }

  lemma StepOfRun(run: seq<Cluster>, steps: seq<Step>, k: nat)
    requires IsSteps(run, steps) && k < |steps|
    ensures Next(run[k], steps[k], run[k + 1])
  {
  }

  /** Rising positions pass `x` exactly when one of the steps that pass it is among them. */
  lemma {:induction false} Passing(at: seq<int>, passes: set<nat>, x: int, i: nat, j: nat)
    requires i <= j < |at|
    requires forall k: nat :: i <= k < j ==> at[k] <= at[k + 1] && (at[k] < x <= at[k + 1] <==> k in passes)
    ensures at[i] <= at[j]
    ensures at[i] < x <= at[j] <==> exists k: nat :: i <= k < j && k in passes
    decreases j
  {
    if i < j {
      var last := j - 1;
      Passing(at, passes, x, i, last);
      assert at[last] <= at[j] && (at[last] < x <= at[j] <==> last in passes);
      if k: nat :| i <= k < last && k in passes {
        assert i <= k < j && at[i] < x <= at[j];
      } else if last in passes {
        assert i <= last < j;
      }
    }
  }

  /** While a server leads, its `lastApplied` passes a chosen entry's index exactly when some turn
      of its learner applies that entry. */
  lemma AppliedOnPassing(run: seq<Cluster>, steps: seq<Step>, i: nat, j: nat, l: nat, e: Entry)
    requires IsRun(run, steps) && i <= j < |run| && e in run[i].chosen && LeadsThrough(run, l, i, j)
    ensures run[i].servers[l].lastApplied <= run[j].servers[l].lastApplied
    ensures run[i].servers[l].lastApplied < e.index <= run[j].servers[l].lastApplied <==>
      exists k :: i <= k < j && AppliesAt(run, steps, k, l, e)
  {
    var at := seq(|run|, m requires 0 <= m < |run| =>
      if l < |run[m].servers| then run[m].servers[l].lastApplied else -1);
    var passes := set k: nat | i <= k < j && AppliesAt(run, steps, k, l, e);
    forall k: nat | i <= k < j
      ensures at[k] <= at[k + 1] && (at[k] < e.index <= at[k + 1] <==> k in passes)
    {
      RunStep(run, steps, i, k, l, e);
    }
    Passing(at, passes, e.index, i, j);
    if k :| i <= k < j && AppliesAt(run, steps, k, l, e) {
      assert k in passes;
    }
  }

  /** An entry that a majority accepted before a server took the lead is applied by its learner,
      once it has caught up, if and only if the learner had not passed its index by then. */
  lemma AppliedIffNotPassed(run: seq<Cluster>, steps: seq<Step>, i: nat, j: nat, l: nat, e: Entry)
    requires IsRun(run, steps) && i <= j < |run| && e in run[i].chosen && LeadsThrough(run, l, i, j)
    requires e.index <= run[j].servers[l].lastApplied
    ensures (exists k :: i <= k < j && AppliesAt(run, steps, k, l, e)) <==> run[i].servers[l].lastApplied < e.index
  {
    AppliedOnPassing(run, steps, i, j, l, e);
  }

  // ----- commits -----

  /** Short of a restart a server forgets no commit, unlearns nothing and loses no slot. */
  ghost predicate GoesOn(s: Server, s': Server) {
    s.commitIndex <= s'.commitIndex && s.lastApplied <= s'.lastApplied && |s.disk.mem.log| <= |s'.disk.mem.log|
  }

  lemma ElectGoesOn(s: Server, replies: seq<PrepareReply>, n: nat)
    ensures GoesOn(s, BeginElection(s).0) && GoesOn(s, Election(s, replies, n).0)
  {
    AdoptMerges(BeginElection(s).0.disk, Carried(replies));
  }

  lemma {:induction false} InstallGoesOn(d: Durable, entries: seq<Entry>)
    ensures |d.mem.log| <= |Install(d, entries).0.mem.log|
    decreases |entries|
  {
    if entries != [] && InstallOne(d, entries[0]).1 {
      InstallGoesOn(InstallOne(d, entries[0]).0, entries[1..]);
    }
  }

  lemma ElectStepGoesOn(c: Cluster, c': Cluster, who: nat, reached: set<nat>, answered: seq<nat>, l: nat)
    requires ElectStep(c, c', who, reached, answered) && l < |c.servers|
    ensures l < |c'.servers| && GoesOn(c.servers[l], c'.servers[l])
  {
    var b := BeginElection(c.servers[who]).1;
    if b.Some? {
      ElectGoesOn(c.servers[who], PrepareReplies(c.servers, b.value, answered), |c.servers|);
      if l != who {
        assert c'.servers[l] == if l in reached then HandlePrepare(c.servers[l], b.value).0 else c.servers[l];
      }
    } else {
      ElectGoesOn(c.servers[who], [], |c.servers|);
    }
  }

  lemma ProposeGoesOn(c: Cluster, c': Cluster, op: Operation, key: string, value: string, reached: set<nat>,
                      answered: seq<nat>, l: nat)
    requires ProposeStep(c, c', op, key, value, reached, answered) && l < |c.servers|
    ensures l < |c'.servers| && GoesOn(c.servers[l], c'.servers[l])
  {
  }

  lemma TransferGoesOn(c: Cluster, c': Cluster, to: nat, from: nat, upTo: nat, l: nat)
    requires Next(c, Transfer(to, from, upTo), c') && l < |c.servers|
    ensures l < |c'.servers| && GoesOn(c.servers[l], c'.servers[l])
  {
    InstallGoesOn(c.servers[to].disk, MissingEntries(c.servers[c.leader.value].disk.mem.log, from, upTo));
  }

  lemma StepGoesOn(c: Cluster, step: Step, c': Cluster, l: nat)
    requires Next(c, step, c') && l < |c.servers| && step != Crash(l)
    ensures l < |c'.servers| && GoesOn(c.servers[l], c'.servers[l])
  {
    match step {
      case Elect(who, reached, answered) => ElectStepGoesOn(c, c', who, reached, answered, l);
      case Propose(op, key, value, reached, answered) => ProposeGoesOn(c, c', op, key, value, reached, answered, l);
      case Transfer(to, from, upTo) => TransferGoesOn(c, c', to, from, upTo, l);
      case _ =>
    }
  }

  lemma ProposalCommits(c: Cluster, c': Cluster, op: Operation, key: string, value: string, reached: set<nat>,
                        answered: seq<nat>, e: Entry)
    requires ProposeStep(c, c', op, key, value, reached, answered) && e in c'.acked && e !in c.acked
    ensures
      var p := c.leader.value;
      && e.ballot == c.servers[p].disk.mem.npromised
      && p < |c'.servers| && c'.servers[p].role == Leader && c'.servers[p].commitIndex >= e.index
      && e.index < |c'.servers[p].disk.mem.log|
  {
  }

  /** The server that gets an entry acknowledged knows of the commit, and has the slot. */
  lemma AckCommits(c: Cluster, step: Step, c': Cluster, e: Entry)
    requires FailoverSafety.Inv(c) && Next(c, step, c') && e in c'.acked && e !in c.acked
    ensures
      var p := e.ballot.server;
      && p < |c'.servers| && c'.servers[p].role == Leader && c'.servers[p].commitIndex >= e.index
      && e.index < |c'.servers[p].disk.mem.log|
  {
    if step.Propose? {
      ProposalCommits(c, c', step.op, step.key, step.value, step.reached, step.answered, e);
      assert c.servers[c.leader.value].id == c.leader.value;
    }
  }

  /** Server `p` does not restart in steps `i` to `j - 1`. */
  ghost predicate NoRestart(steps: seq<Step>, i: nat, j: nat, p: nat) {
    forall m: nat :: i <= m < j && m < |steps| ==> steps[m] != Crash(p)
  }

  lemma RunStepGoesOn(run: seq<Cluster>, steps: seq<Step>, k: nat, p: nat)
    requires IsSteps(run, steps) && k < |steps| && p < |run[k].servers| && steps[k] != Crash(p)
    ensures p < |run[k + 1].servers| && GoesOn(run[k].servers[p], run[k + 1].servers[p])
  {
    StepGoesOn(run[k], steps[k], run[k + 1], p);
  }

  lemma {:induction false} RunGoesOn(run: seq<Cluster>, steps: seq<Step>, i: nat, j: nat, p: nat)
    requires IsSteps(run, steps) && i <= j < |run| && p < |run[i].servers| && NoRestart(steps, i, j, p)
    ensures p < |run[j].servers| && GoesOn(run[i].servers[p], run[j].servers[p])
    decreases j
  {
    if i < j {
      var last := j - 1;
      RunGoesOn(run, steps, i, last, p);
      RunStepGoesOn(run, steps, last, p);
    }
  }

  lemma RunAckCommits(run: seq<Cluster>, steps: seq<Step>, i: nat, e: Entry)
    requires IsRun(run, steps) && i < |steps| && e in run[i + 1].acked && e !in run[i].acked
    ensures
      var p := e.ballot.server;
      && p < |run[i + 1].servers| && run[i + 1].servers[p].commitIndex >= e.index
      && e.index < |run[i + 1].servers[p].disk.mem.log|
  {
    FailoverSafety.RunInv(run, steps, i);
    StepOfRun(run, steps, i);
    AckCommits(run[i], steps[i], run[i + 1], e);
  }

  /** In every run, from when an entry is acknowledged its proposer's commit index is at or above the
      entry, until the proposer restarts. */
  lemma AckedStaysCommitted(run: seq<Cluster>, steps: seq<Step>, i: nat, j: nat, e: Entry)
    requires IsRun(run, steps) && i < j < |run| && e in run[i + 1].acked && e !in run[i].acked
    requires NoRestart(steps, i + 1, j, e.ballot.server)
    ensures
      var p := e.ballot.server;
      && p < |run[j].servers| && run[j].servers[p].commitIndex >= e.index
      && e.index < |run[j].servers[p].disk.mem.log|
  {
    RunAckCommits(run, steps, i, e);
    RunGoesOn(run, steps, i + 1, j, e.ballot.server);
  }

  /** A turn of the learner with the slot there and the commit known leaves nothing up to it. */
  lemma TurnReaches(s: Server, index: nat)
    requires index <= s.commitIndex && index < |s.disk.mem.log|
    ensures ApplyCommitted(s).lastApplied >= index
  {
  }

  lemma RunTurnReaches(run: seq<Cluster>, steps: seq<Step>, k: nat, p: nat, index: nat)
    requires IsSteps(run, steps) && k < |steps| && steps[k] == Learn(p) && p < |run[k].servers|
    requires index <= run[k].servers[p].commitIndex && index < |run[k].servers[p].disk.mem.log|
    ensures p < |run[k + 1].servers| && run[k + 1].servers[p].lastApplied >= index
  {
    TurnReaches(run[k].servers[p], index);
  }

  /** And after the proposer's next learner turn `lastApplied` is at or above the entry. */
  lemma AckedIsLearnt(run: seq<Cluster>, steps: seq<Step>, i: nat, k: nat, j: nat, e: Entry)
    requires IsRun(run, steps) && i < k < j < |run| && e in run[i + 1].acked && e !in run[i].acked
    requires NoRestart(steps, i + 1, j, e.ballot.server) && steps[k] == Learn(e.ballot.server)
    ensures e.ballot.server < |run[j].servers| && run[j].servers[e.ballot.server].lastApplied >= e.index
  {
    AckedStaysCommitted(run, steps, i, k, e);
    RunTurnReaches(run, steps, k, e.ballot.server, e.index);
    RunGoesOn(run, steps, k + 1, j, e.ballot.server);
  }

  /** So a proposer that keeps leading applies an entry it got acknowledged, unless its learner had
      passed the index before. */
  lemma AckedIsApplied(run: seq<Cluster>, steps: seq<Step>, i: nat, k: nat, j: nat, e: Entry)
    requires IsRun(run, steps) && i < k < j < |run| && e in run[i + 1].acked && e !in run[i].acked
    requires LeadsThrough(run, e.ballot.server, i + 1, j) && steps[k] == Learn(e.ballot.server)
    ensures (exists m :: i < m < j && AppliesAt(run, steps, m, e.ballot.server, e)) <==>
      run[i + 1].servers[e.ballot.server].lastApplied < e.index
  {
    var p := e.ballot.server;
    forall m: nat | i < m < j
      ensures steps[m] != Crash(p)
    {
      StepOfRun(run, steps, m);
      assert run[m + 1].servers[p].role == Leader;
    }
    AckedIsLearnt(run, steps, i, k, j, e);
    FailoverSafety.RunInv(run, steps, i + 1);
    AppliedIffNotPassed(run, steps, i + 1, j, p, e);
  }

  /** A heartbeat that is not below its receiver's promise brings the receiver's commit index up to
      the leader's; any other changes nothing. */
  lemma BeatTellsCommits(run: seq<Cluster>, steps: seq<Step>, i: nat, to: nat)
    requires IsRun(run, steps) && i < |steps| && steps[i] == Beat(to)
    ensures run[i].leader.Some? && run[i].leader.value < |run[i].servers|
    ensures to < |run[i].servers| == |run[i + 1].servers|
    ensures
      var l, f, f' := run[i].servers[run[i].leader.value], run[i].servers[to], run[i + 1].servers[to];
      if AtLeast(l.disk.mem.npromised, f.disk.mem.npromised)
      then f'.commitIndex >= l.commitIndex && f'.commitIndex >= f.commitIndex &&
        f'.commitIndex in {l.commitIndex, f.commitIndex}
      else run[i + 1].servers == run[i].servers
  {
    StepOfRun(run, steps, i);
  }
}
