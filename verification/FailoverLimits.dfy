/** Concrete runs of whole rounds: some that the results of FailoverSafety.dfy speak of, and some
    that show why they need their hypotheses. */
module FailoverLimits {
  import opened Types
  import opened Persistence
  import opened Handlers
  import opened Histories
  import F = Failover

  // ----- bootstrap by another server -----

  const STRAY: Entry := Entry(0, Ballot(1, 4), Operation.Put, "k", "stray")

  const KEPT: Entry := Entry(0, Ballot(1, 2), Operation.Put, "k", "kept")

  /** Server 4's entry reaches server 0 only, and server 4 stops. */
  lemma StrayHistory(stray: Entry) returns (h: History, c: F.Cluster)
    requires stray == STRAY
    ensures At(h, c) && |h.run| == 3 && F.StartsWith(h.run[0], Some(4))
    ensures |c.servers| == 5 && c.leader == None && c.stopped == {4}
    ensures Has(c.servers[0], 0, AtZero(Ballot(0, 0), stray))
    ensures forall i :: 1 <= i < 4 ==> Has(c.servers[i], i, Empty(Ballot(0, i))) && Unlearned(c.servers[i])
  {
    h, c := Begins(5, 4);
    AcceptsAtZero(c.servers[0], 0, Ballot(0, 0), stray);
    h, c := Proposes(h, c, 4, Empty(Ballot(1, 4)), stray, {0});
    h, c := Stops(h, c, 4);
  }

  /** Server 2 leads by the votes of 1 and 3. */
  lemma KeptIsElected(h: History, c: F.Cluster, b: Ballot) returns (h': History, c': F.Cluster)
    requires At(h, c) && |c.servers| == 5 && c.leader == None && c.stopped == {4} && b == Ballot(1, 2)
    requires forall i :: 1 <= i < 4 ==> Has(c.servers[i], i, Empty(Ballot(0, i))) && Unlearned(c.servers[i])
    ensures Longer(h, h', c') && |c'.servers| == 5 && c'.leader == Some(2) && c'.stopped == {4}
    ensures c'.servers[0] == c.servers[0]
    ensures LeadsWith(c'.servers[2], 2, Empty(b)) && Unlearned(c'.servers[2])
    ensures Has(c'.servers[1], 1, Empty(b)) && Has(c'.servers[3], 3, Empty(b))
  {
    EmptyVotes(c.servers[1], 1, Ballot(0, 1), b);
    EmptyVotes(c.servers[3], 3, Ballot(0, 3), b);
    TwoGrant(c.servers, b, 1, 3, [], []);
    h', c' := Wins(h, c, 2, {1, 3}, [1, 3], Empty(Ballot(0, 2)), b, [], []);
  }

  /** A majority accepts server 2's entry. */
  lemma KeptIsAcked(h: History, c: F.Cluster, kept: Entry) returns (h': History, c': F.Cluster)
    requires At(h, c) && |c.servers| == 5 && c.leader == Some(2) && c.stopped == {4} && kept == KEPT
    requires LeadsWith(c.servers[2], 2, Empty(kept.ballot)) && Unlearned(c.servers[2])
    requires Has(c.servers[1], 1, Empty(kept.ballot)) && Has(c.servers[3], 3, Empty(kept.ballot))
    ensures Longer(h, h', c') && kept in c'.acked
    ensures |c'.servers| == 5 && c'.leader == Some(2) && c'.stopped == {4} && c'.servers[0] == c.servers[0]
    ensures Has(c'.servers[1], 1, AtZero(kept.ballot, kept)) && Has(c'.servers[3], 3, AtZero(kept.ballot, kept))
  {
    AcceptsAtZero(c.servers[1], 1, kept.ballot, kept);
    AcceptsAtZero(c.servers[3], 3, kept.ballot, kept);
    h', c' := Commits(h, c, 2, Empty(kept.ballot), kept, {1, 3}, [1, 3]);
  }

  lemma KeptIsReported(c: F.Cluster, kept: Entry, b: Ballot)
    requires |c.servers| == 5 && kept.ballot == Ballot(1, 2) && b == Ballot(2, 0)
    requires Has(c.servers[1], 1, AtZero(kept.ballot, kept)) && Has(c.servers[3], 3, AtZero(kept.ballot, kept))
    ensures Grant(c.servers, b, [1, 3], [kept, kept])
  {
    AtZeroVotes(c.servers[1], 1, kept.ballot, kept, b);
    AtZeroVotes(c.servers[3], 3, kept.ballot, kept, b);
    TwoGrant(c.servers, b, 1, 3, [kept], [kept]);
    assert [kept] + [kept] == [kept, kept];
  }

  /** Server 0, which has lost with its first, low ballot, wins with its second. */
  lemma StrayIsElected(h: History, c: F.Cluster, stray: Entry, kept: Entry, b: Ballot)
      returns (h': History, c': F.Cluster)
    requires At(h, c) && |c.servers| == 5 && c.leader == None && c.stopped == {4, 2} && b == Ballot(2, 0)
    requires stray.index == kept.index == 0 && kept.ballot == Ballot(1, 2) && stray.ballot == Ballot(1, 4)
    requires Has(c.servers[0], 0, AtZero(Ballot(1, 0), stray))
    requires Has(c.servers[1], 1, AtZero(kept.ballot, kept)) && Has(c.servers[3], 3, AtZero(kept.ballot, kept))
    ensures Longer(h, h', c') && |c'.servers| == 5 && c'.leader == Some(0)
    ensures c'.servers[0].role == Leader && c'.servers[0].disk.mem.log == [stray]
  {
    KeptIsReported(c, kept, b);
    MergeCovered([stray], kept);
    h', c' := Wins(h, c, 0, {1, 3}, [1, 3], AtZero(Ballot(1, 0), stray), b, [kept, kept], [stray]);
  }

  /** A run of whole rounds from five servers of which server 4 was started as leader, at ballot
      (1,4); only server 0 accepts its entry. Server 2 leads next at (1,2), lower than (1,4), and
      its write is acknowledged; then server 0 leads with the stray entry in its place. */
  lemma BootstrapMustBeServerZero() returns (run: seq<F.Cluster>, steps: seq<F.Step>)
    ensures F.IsSteps(run, steps) && |run| == 8 && F.StartsWith(run[0], Some(4))
    ensures KEPT in run[4].acked && KEPT.index == STRAY.index == 0
    ensures run[7].leader == Some(0) && |run[7].servers| == 5
    ensures run[7].servers[0].role == Leader && run[7].servers[0].disk.mem.log == [STRAY]
  {
    var stray, kept := STRAY, KEPT;
    var h, c := StrayHistory(stray);
    h, c := KeptIsElected(h, c, kept.ballot);
    h, c := KeptIsAcked(h, c, kept);
    h, c := Stops(h, c, 2);
    h, c := Loses(h, c, 0, AtZero(Ballot(0, 0), stray), Ballot(1, 0));
    h, c := StrayIsElected(h, c, stray, kept, Ballot(2, 0));
    run, steps := h.run, h.steps;
  }

  // ----- entries below the commit index -----

  const LOOSE: Entry := Entry(0, Ballot(1, 0), Operation.Put, "k", "loose")

  const MARK: Entry := Entry(1, Ballot(1, 2), NoOp, "", "")

  /** Server `i` has promised and logged nothing. */
  ghost predicate Idle(c: F.Cluster, i: nat) {
    i < |c.servers| && Has(c.servers[i], i, Empty(Ballot(0, i)))
  }

  /** Server 0's entry reaches server 1 only, and server 0 stops. */
  lemma LooseHistory(loose: Entry) returns (h: History, c: F.Cluster)
    requires loose == LOOSE
    ensures At(h, c) && NoCrash(h) && |h.run| == 3 && F.Init(h.run[0])
    ensures |c.servers| == 7 && c.leader == None && c.stopped == {0}
    ensures Has(c.servers[1], 1, AtZero(Ballot(0, 1), loose)) && Unlearned(c.servers[2])
    ensures forall i :: 2 <= i < 7 ==> Idle(c, i)
  {
    h, c := Begins(7, 0);
    AcceptsAtZero(c.servers[1], 1, Ballot(0, 1), loose);
    h, c := Proposes(h, c, 0, Empty(Ballot(1, 0)), loose, {1});
    h, c := Stops(h, c, 0);
  }

  ghost predicate LooseIsLed(c: F.Cluster, loose: Entry, b: Ballot) {
    && |c.servers| == 7 && c.leader == Some(2) && c.stopped == {0} && Idle(c, 5) && Idle(c, 6)
    && LeadsWith(c.servers[2], 2, Saved([loose], b, map[])) && Unlearned(c.servers[2])
    && Has(c.servers[3], 3, Empty(b)) && Has(c.servers[4], 4, Empty(b))
  }

  lemma LooseIsReported(c: F.Cluster, loose: Entry, b: Ballot)
    requires |c.servers| == 7 && b == Ballot(1, 2) && Has(c.servers[1], 1, AtZero(Ballot(0, 1), loose)) && Idle(c, 3)
    requires Idle(c, 4)
    ensures Grant(c.servers, b, [1, 3, 4], [loose])
  {
    AtZeroVotes(c.servers[1], 1, Ballot(0, 1), loose, b);
    EmptyVotes(c.servers[3], 3, Ballot(0, 3), b);
    EmptyVotes(c.servers[4], 4, Ballot(0, 4), b);
    ThreeGrant(c.servers, b, 1, 3, 4, [loose], [], []);
    assert [loose] + ([] + []) == [loose];
  }

  lemma IdleVote(c: F.Cluster, c': F.Cluster, who: nat, reached: set<nat>, b: Ballot, i: nat)
    requires OthersVoted(c, c', who, reached, b) && Idle(c, i) && i != who && b.term > 0
    ensures i < |c'.servers| && if i in reached then Has(c'.servers[i], i, Empty(b)) else Idle(c', i)
  {
    EmptyVotes(c.servers[i], i, Ballot(0, i), b);
  }

  /** Server 2 is elected and adopts the entry from server 1. */
  lemma LooseIsAdopted(h: History, c: F.Cluster, loose: Entry, b: Ballot) returns (h': History, c': F.Cluster)
    requires At(h, c) && |c.servers| == 7 && c.leader == None && c.stopped == {0}
    requires loose.index == 0 && b == Ballot(1, 2)
    requires Has(c.servers[1], 1, AtZero(Ballot(0, 1), loose)) && Unlearned(c.servers[2])
    requires Idle(c, 2) && Idle(c, 3) && Idle(c, 4)
    ensures Longer(h, h', c') && c'.leader == Some(2) && OthersVoted(c, c', 2, {1, 3, 4}, b)
    ensures LeadsWith(c'.servers[2], 2, Saved([loose], b, map[])) && Unlearned(c'.servers[2])
  {
    LooseIsReported(c, loose, b);
    ThreePeers(c, 2, 1, 3, 4);
    MergeFirst(loose);
    h', c' := Wins(h, c, 2, {1, 3, 4}, [1, 3, 4], Empty(Ballot(0, 2)), b, [loose], [loose]);
  }

  lemma LooseVotersAre(c: F.Cluster, c': F.Cluster, loose: Entry, b: Ballot)
    requires |c.servers| == 7 && c.stopped == {0} && forall i :: 3 <= i < 7 ==> Idle(c, i)
    requires c'.leader == Some(2) && OthersVoted(c, c', 2, {1, 3, 4}, b) && b.term > 0
    requires LeadsWith(c'.servers[2], 2, Saved([loose], b, map[])) && Unlearned(c'.servers[2])
    ensures LooseIsLed(c', loose, b)
  {
    forall i | 3 <= i < 7
      ensures if i < 5 then Has(c'.servers[i], i, Empty(b)) else Idle(c', i)
    {
      IdleVote(c, c', 2, {1, 3, 4}, b, i);
    }
  }

  ghost predicate MarkIsHeld(c: F.Cluster, mark: Entry) {
    && |c.servers| == 7 && c.leader == Some(2) && c.stopped == {0}
    && Has(c.servers[3], 3, AtOne(mark.ballot, mark)) && Has(c.servers[4], 4, AtOne(mark.ballot, mark))
    && Has(c.servers[5], 5, AtOne(Ballot(0, 5), mark)) && Has(c.servers[6], 6, Empty(Ballot(0, 6)))
  }

  /** Server 2's No-Op gets a majority. */
  lemma MarkIsCommitted(h: History, c: F.Cluster, loose: Entry, mark: Entry) returns (h': History, c': F.Cluster)
    requires At(h, c) && LooseIsLed(c, loose, mark.ballot) && mark == MARK
    ensures Longer(h, h', c') && MarkIsHeld(c', mark)
    ensures
      var s := c'.servers[2];
      s.disk.mem.log == [loose, mark] && s.commitIndex == 1 && s.lastApplied == -1 && s.table == map[]
  {
    AcceptsAtOne(c.servers[3], 3, mark.ballot, mark);
    AcceptsAtOne(c.servers[4], 4, mark.ballot, mark);
    AcceptsAtOne(c.servers[5], 5, Ballot(0, 5), mark);
    assert [loose] + [mark] == [loose, mark];
    h', c' := Commits(h, c, 2, Saved([loose], mark.ballot, map[]), mark, {3, 4, 5}, [3, 4, 5]);
  }

  /** Applying both entries. */
  lemma LooseIsApplied(s: Server, loose: Entry, mark: Entry)
    requires loose == LOOSE && mark == MARK
    requires s.disk.mem.log == [loose, mark] && s.commitIndex == 1 && s.lastApplied == -1 && s.table == map[]
    ensures ApplyCommitted(s).table == map["k" := "loose"]
  {
    assert Ready(s) == [loose, mark] && [loose, mark][1..] == [mark] && [mark][1..] == [];
    assert Applied(map[], loose) == map["k" := "loose"];
    assert Replay(map["k" := "loose"], [mark]) == Replay(map["k" := "loose"], []);
  }

  lemma MarkIsReported(c: F.Cluster, mark: Entry, b: Ballot)
    requires |c.servers| == 7 && mark.ballot == Ballot(1, 2) && b == Ballot(2, 3)
    requires Has(c.servers[4], 4, AtOne(mark.ballot, mark))
    requires Has(c.servers[5], 5, AtOne(Ballot(0, 5), mark)) && Has(c.servers[6], 6, Empty(Ballot(0, 6)))
    ensures Grant(c.servers, b, [4, 5, 6], [mark, mark])
  {
    AtOneVotes(c.servers[4], 4, mark.ballot, mark, b);
    AtOneVotes(c.servers[5], 5, Ballot(0, 5), mark, b);
    EmptyVotes(c.servers[6], 6, Ballot(0, 6), b);
    ThreeGrant(c.servers, b, 4, 5, 6, [mark], [mark], []);
    assert [mark] + ([mark] + []) == [mark, mark];
  }

  lemma BlankIsElected(h: History, c: F.Cluster, mark: Entry, b: Ballot) returns (h': History, c': F.Cluster)
    requires At(h, c) && MarkIsHeld(c.(leader := Some(2), stopped := {0}), mark) && c.leader == None
    requires c.stopped == {0, 2}
    requires mark.index == 1 && mark.ballot == Ballot(1, 2) && b == Ballot(2, 3)
    ensures Longer(h, h', c') && |c'.servers| == 7 && c'.leader == Some(3)
    ensures c'.servers[3].role == Leader && c'.servers[3].disk.mem.log == [BLANK, mark]
  {
    MarkIsReported(c, mark, b);
    ThreePeers(c, 3, 4, 5, 6);
    MergeCovered([BLANK, mark], mark);
    h', c' := Wins(h, c, 3, {4, 5, 6}, [4, 5, 6], AtOne(mark.ballot, mark), b, [mark, mark], [BLANK, mark]);
  }

  /** A run of seven servers. Server 2 leads and has adopted an entry that only server 1 had
      accepted; it does not propose it again. Its No-Op gets a majority, its commit index passes
      the adopted entry and its table has the entry's write; yet server 3 leads next with a blank
      in the entry's place: being at or below the commit index does not keep an entry. */
  lemma CommitIndexIsNotEnough() returns (run: seq<F.Cluster>, steps: seq<F.Step>)
    ensures F.IsRun(run, steps) && |run| == 8
    ensures |run[5].servers| == 7 && |run[7].servers| == 7
    ensures
      var s := run[5].servers[2];
      run[5].leader == Some(2) && s.commitIndex == 1 && s.table == map["k" := "loose"]
    ensures
      var t := run[7].servers[3];
      run[7].leader == Some(3) && t.role == Leader && t.disk.mem.log == [BLANK, MARK]
  {
    var loose, mark := LOOSE, MARK;
    var h, c := LooseHistory(loose);
    var c' := c;
    h, c := LooseIsAdopted(h, c, loose, mark.ballot);
    LooseVotersAre(c', c, loose, mark.ballot);
    h, c := MarkIsCommitted(h, c, loose, mark);
    LooseIsApplied(c.servers[2], loose, mark);
    h, c := Learns(h, c, 2);
    h, c := Stops(h, c, 2);
    h, c := BlankIsElected(h, c, mark, Ballot(2, 3));
    IsARun(h, c);
    run, steps := h.run, h.steps;
  }

  // ----- a leader restarted with nothing saved -----

  const DRAFT: Entry := Entry(0, Ballot(1, 0), Operation.Put, "k", "draft")

  const FINAL: Entry := Entry(0, Ballot(1, 0), Operation.Put, "k", "final")

  /** Server 0 leads, has this entry in memory only, and has no file. */
  ghost predicate Drafted(s: Server, draft: Entry) {
    && s.id == 0 && s.role == Leader && s.disk == Durable(Saved([draft], draft.ballot, map[]), None, [])
  }

  /** The first save of server 0 fails, so its entry is not sent. */
  lemma DraftIsAppended(draft: Entry) returns (h: History, c: F.Cluster)
    requires draft == DRAFT
    ensures At(h, c) && |h.run| == 3 && F.Init(h.run[0])
    ensures |c.servers| == 3 && c.leader == Some(0) && c.stopped == {} && Drafted(c.servers[0], draft)
    ensures Has(c.servers[1], 1, Empty(Ballot(0, 1))) && Has(c.servers[2], 2, Empty(Ballot(0, 2)))
  {
    var c0;
    h, c0 := Begins(3, 0);
    var c1 := c0.(servers := c0.servers[0 := c0.servers[0].(disk := c0.servers[0].disk.(faults := [true]))]);
    h := Then(h, c0, F.Disk(0, [true]), c1);
    assert draft == NewEntry(c1.servers[0], draft.op, draft.key, draft.value) && [] + [draft] == [draft];
    c := F.AfterProposal(c1, draft.op, draft.key, draft.value, {}, []);
    h := Then(h, c1, F.Propose(draft.op, draft.key, draft.value, {}, []), c);
  }

  /** A heartbeat finds server 1 behind, and the leader transfers the entry to it. */
  lemma DraftIsTransferred(h: History, c: F.Cluster, draft: Entry) returns (h': History, c': F.Cluster)
    requires At(h, c) && |c.servers| == 3 && c.leader == Some(0) && c.stopped == {} && Drafted(c.servers[0], draft)
    requires draft.index == 0 && Has(c.servers[1], 1, Empty(Ballot(0, 1)))
    ensures Longer(h, h', c') && |c'.servers| == 3 && c' == c.(servers := c.servers[1 := c'.servers[1]])
    ensures Has(c'.servers[1], 1, AtZero(Ballot(0, 1), draft))
  {
    InstallsAtZero(c.servers[1], 1, Ballot(0, 1), draft);
    h', c' := Transfers(h, c, 1, 0, 1, [draft]);
  }

  /** Server 0 restarts as if it had never run. */
  lemma DraftIsForgotten(h: History, c: F.Cluster, draft: Entry) returns (h': History, c': F.Cluster)
    requires At(h, c) && |c.servers| == 3 && c.leader == Some(0) && c.stopped == {} && Drafted(c.servers[0], draft)
    ensures Further(h, h', c') && |c'.servers| == 3 && c' == c.(servers := c.servers[0 := c'.servers[0]])
    ensures Has(c'.servers[0], 0, Empty(Ballot(0, 0))) && Unlearned(c'.servers[0])
  {
    c' := c.(servers := c.servers[0 := Restart(c.servers[0])]);
    h' := Then(h, c, F.Crash(0), c');
  }

  /** It is elected at ballot (1,0) again, and server 2 accepts another entry of that ballot. */
  lemma FinalIsAcked(h: History, c: F.Cluster, final: Entry) returns (h': History, c': F.Cluster)
    requires At(h, c) && |c.servers| == 3 && c.leader == Some(0) && c.stopped == {} && final == FINAL
    requires Has(c.servers[0], 0, Empty(Ballot(0, 0))) && Unlearned(c.servers[0])
    requires Has(c.servers[2], 2, Empty(Ballot(0, 2)))
    ensures At(h', c') && |h'.run| == |h.run| + 2 && h'.run[..|h.run|] == h.run
    ensures final in c'.acked && |c'.servers| == 3 && c'.leader == Some(0) && c'.stopped == {}
    ensures c'.servers[1] == c.servers[1] && Has(c'.servers[2], 2, AtZero(final.ballot, final))
  {
    var b := final.ballot;
    SecondGrants(c, b);
    EmptyVotes(c.servers[2], 2, Ballot(0, 2), b);
    var c1;
    h', c1 := Wins(h, c, 0, {2}, [2], Empty(Ballot(0, 0)), b, [], []);
    AcceptsAtZero(c1.servers[2], 2, b, final);
    h', c' := Commits(h', c1, 0, Empty(b), final, {2}, [2]);
  }

  lemma DraftIsElected(h: History, c: F.Cluster, draft: Entry, final: Entry) returns (h': History, c': F.Cluster)
    requires At(h, c) && |c.servers| == 3 && c.leader == None && c.stopped == {0} && draft == DRAFT && final == FINAL
    requires Has(c.servers[1], 1, AtZero(Ballot(0, 1), draft)) && Has(c.servers[2], 2, AtZero(final.ballot, final))
    ensures Longer(h, h', c') && |c'.servers| == 3 && c'.leader == Some(1)
    ensures c'.servers[1].role == Leader && c'.servers[1].disk.mem.log == [draft]
  {
    var b := Ballot(1, 1);
    AtZeroVotes(c.servers[2], 2, final.ballot, final, b);
    NobodyGrants(c.servers, b);
    GrantMore(c.servers, b, 2, [final], [], []);
    assert [2] + [] == [2] && [final] + [] == [final];
    MergeCovered([draft], final);
    h', c' := Wins(h, c, 1, {2}, [2], AtZero(Ballot(0, 1), draft), b, [final], [draft]);
  }

  /** A run of three servers from a proper start. The bootstrap leader's first save fails, its
      unsaved entry is transferred to server 1, and it restarts without a file. It is elected at
      the same ballot (1,0), and server 2 accepts another entry at that ballot and index, which is
      acknowledged. Server 1 leads next and keeps the first entry, whose ballot is no lower. */
  lemma UnsavedLeaderMustNotRestart() returns (run: seq<F.Cluster>, steps: seq<F.Step>)
    ensures F.IsSteps(run, steps) && F.Init(run[0]) && |run| == 9
    ensures FINAL in run[6].acked && FINAL.index == DRAFT.index == 0
    ensures run[8].leader == Some(1) && |run[8].servers| == 3
    ensures run[8].servers[1].role == Leader && run[8].servers[1].disk.mem.log == [DRAFT]
  {
    var draft, final := DRAFT, FINAL;
    var h, c := DraftIsAppended(draft);
    h, c := DraftIsTransferred(h, c, draft);
    h, c := DraftIsForgotten(h, c, draft);
    h, c := FinalIsAcked(h, c, final);
    h, c := Stops(h, c, 0);
    h, c := DraftIsElected(h, c, draft, final);
    run, steps := h.run, h.steps;
  }

  // ----- applied in sequence, or not -----

  ghost predicate Learnt(s: Server, commitIndex: Position, lastApplied: Position, table: Table) {
    s.commitIndex == commitIndex && s.lastApplied == lastApplied && s.table == table
  }

  /** Three servers: a write of the bootstrap leader is accepted by server 1, a majority. */
  lemma EarlyIsAcked(e: Entry) returns (h: History, c: F.Cluster)
    requires e == EARLY
    ensures At(h, c) && NoCrash(h) && |h.run| == 2 && F.Init(h.run[0])
    ensures e in c.acked && c.leader == Some(0) && c.stopped == {} && |c.servers| == 3
    ensures LeadsWith(c.servers[0], 0, Saved([e], e.ballot, map[])) && Learnt(c.servers[0], 0, -1, map[])
    ensures Has(c.servers[1], 1, AtZero(Ballot(0, 1), e)) && Has(c.servers[2], 2, Empty(Ballot(0, 2)))
    ensures Unlearned(c.servers[2])
  {
    h, c := Begins(3, 0);
    AcceptsAtZero(c.servers[1], 1, Ballot(0, 1), e);
    assert [] + [e] == [e];
    h, c := Commits(h, c, 0, Empty(Ballot(1, 0)), e, {1}, [1]);
  }

  /** The learner of server 0 applies its entry. */
  lemma EarlyIsApplied(s: Server, e: Entry)
    requires e == EARLY && s.disk.mem.log == [e] && Learnt(s, 0, -1, map[])
    ensures Learnt(ApplyCommitted(s), 0, 0, map["k" := "v"])
  {
    assert Ready(s) == [e] && [e][1..] == [];
    assert Applied(map[], e) == map["k" := "v"];
    assert Replay(map[], [e]) == Replay(map["k" := "v"], []);
  }

  /** Server 2 hears of the commit before it has the entry; its learner passes the index. */
  lemma IndexIsPassed(s: Server, b: Ballot)
    requires Has(s, 2, Empty(Ballot(0, 2))) && Unlearned(s) && b.term > 0
    ensures
      var t := ApplyCommitted(HandleHeartbeat(s, b, 0).0);
      Has(t, 2, Empty(Ballot(0, 2))) && Learnt(t, 0, 0, map[])
  {
    assert Ready(HandleHeartbeat(s, b, 0).0) == [];
  }

  /** Server 0 applies its acknowledged write; server 2 has passed its index and gets it after. */
  lemma EarlyIsPassed(e: Entry) returns (h: History, c: F.Cluster)
    requires e == EARLY
    ensures At(h, c) && NoCrash(h) && |h.run| == 6 && F.Init(h.run[0]) && e in h.run[1].acked
    ensures |c.servers| == 3 && c.leader == Some(0) && c.stopped == {}
    ensures LeadsWith(c.servers[0], 0, Saved([e], e.ballot, map[])) && Learnt(c.servers[0], 0, 0, map["k" := "v"])
    ensures Has(c.servers[1], 1, AtZero(Ballot(0, 1), e))
    ensures Has(c.servers[2], 2, AtZero(Ballot(0, 2), e)) && Learnt(c.servers[2], 0, 0, map[])
  {
    h, c := EarlyIsAcked(e);
    EarlyIsApplied(c.servers[0], e);
    h, c := Learns(h, c, 0);
    IndexIsPassed(c.servers[2], e.ballot);
    h, c := Beats(h, c, 2);
    h, c := Learns(h, c, 2);
    InstallsAtZero(c.servers[2], 2, Ballot(0, 2), e);
    h, c := Transfers(h, c, 2, 0, 1, [e]);
  }

  /** A run of three servers with an acknowledged write that the next leader has in its log and
      never applies: its learner passed the index while the log was empty. The two leaders' stores
      differ although both have applied up to the same index. */
  lemma AckedWriteNeverApplied() returns (run: seq<F.Cluster>, steps: seq<F.Step>)
    ensures F.IsRun(run, steps) && |run| == 8 && EARLY in run[1].acked && |run[7].servers| == 3
    ensures run[7].leader == Some(2) && run[7].servers[2].role == Leader && run[7].servers[2].disk.mem.log == [EARLY]
    ensures run[7].servers[2].lastApplied == run[7].servers[2].commitIndex == 0 == run[7].servers[0].lastApplied
    ensures run[7].servers[2].table == map[] && run[7].servers[0].table == map["k" := "v"]
    ensures ApplyCommitted(run[7].servers[2]) == run[7].servers[2]
  {
    var e, b := EARLY, Ballot(1, 2);
    var h, c := EarlyIsPassed(e);
    h, c := Stops(h, c, 0);
    AtZeroVotes(c.servers[1], 1, Ballot(0, 1), e, b);
    NobodyGrants(c.servers, b);
    GrantMore(c.servers, b, 1, [e], [], []);
    assert [1] + [] == [1] && [e] + [] == [e];
    MergeCovered([e], e);
    h, c := Wins(h, c, 2, {1}, [1], AtZero(Ballot(0, 2), e), b, [e], [e]);
    assert Ready(c.servers[2]) == [];
    IsARun(h, c);
    run, steps := h.run, h.steps;
  }

  // ----- failovers -----

  /** The vote of a server that has nothing. */
  lemma SecondGrants(c: F.Cluster, b: Ballot)
    requires |c.servers| == 3 && Has(c.servers[2], 2, Empty(Ballot(0, 2))) && b.term > 0
    ensures Grant(c.servers, b, [2], [])
  {
    EmptyVotes(c.servers[2], 2, Ballot(0, 2), b);
    NobodyGrants(c.servers, b);
    GrantMore(c.servers, b, 2, [], [], []);
    assert [2] + [] == [2];
  }

  /** A run in which a write is acknowledged, its leader stops, and another server is elected. */
  lemma FailoverHappens() returns (run: seq<F.Cluster>, steps: seq<F.Step>)
    ensures F.IsRun(run, steps) && |run| == 4
    ensures EARLY in run[1].acked && run[1].leader == Some(0) && run[3].leader == Some(1)
  {
    var e, b := EARLY, Ballot(1, 1);
    var h, c := EarlyIsAcked(e);
    h, c := Stops(h, c, 0);
    SecondGrants(c, b);
    h, c := Wins(h, c, 1, {2}, [2], AtZero(Ballot(0, 1), e), b, [], [e]);
    IsARun(h, c);
    run, steps := h.run, h.steps;
  }

  /** A run in which a write is acknowledged and its leader steps down and is elected again. */
  lemma LeaderReturns() returns (run: seq<F.Cluster>, steps: seq<F.Step>)
    ensures F.IsRun(run, steps) && |run| == 4 && |run[2].servers| == 3 && |run[3].servers| == 3
    ensures EARLY in run[1].acked && run[2].servers[0].role == Follower
    ensures run[3].leader == Some(0) && run[3].servers[0].role == Leader
    ensures run[3].servers[0].disk.mem.npromised == Ballot(2, 0)
  {
    var e, b := EARLY, Ballot(2, 0);
    var h, c := EarlyIsAcked(e);
    h, c := StepsDown(h, c, 0, Saved([e], e.ballot, map[]));
    SecondGrants(c, b);
    h, c := Wins(h, c, 0, {2}, [2], Saved([e], e.ballot, map[]), b, [], [e]);
    IsARun(h, c);
    run, steps := h.run, h.steps;
  }
}
