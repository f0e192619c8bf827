/** Runs of the interleaved system: two that lose an acknowledged write, because an election or an
    Accept does not keep to whole rounds, and one in which a learner skips an index. */
module OverlapLimits {
  import opened Types
  import opened Persistence
  import opened Quorums
  import opened Handlers
  import opened Merging
  import opened Interleaving
  import opened Histories

  // ----- runs, step by step -----

  datatype Trace = Trace(run: seq<System>, moves: seq<(nat, Step)>)

  /** The trace is a run of `n` servers with server 0 started as leader, and has come to `y`. */
  ghost predicate Came(t: Trace, y: System, n: nat) {
    && n > 0 && IsRun(t.run, t.moves, FirstLeads(n)) && t.run[|t.moves|] == y
    && |y.servers| == |y.learners| == n
  }

  function FirstLeads(n: nat): seq<bool> {
    seq(n, i => i == 0)
  }

  /** The trace goes on from `t` by `k` moves, all of servers in `who`. */
  ghost predicate Extends(t: Trace, t': Trace, who: set<nat>, k: nat) {
    && |t'.moves| == |t.moves| + k && |t'.run| == |t.run| + k
    && t'.run[..|t.run|] == t.run && t'.moves[..|t.moves|] == t.moves
    && forall m :: |t.moves| <= m < |t'.moves| ==> t'.moves[m].0 in who
  }

  lemma ExtendsBoth(t: Trace, t': Trace, t'': Trace, who: set<nat>, k: nat, k': nat)
    requires Extends(t, t', who, k) && Extends(t', t'', who, k')
    ensures Extends(t, t'', who, k + k')
  {
    assert t''.run[..|t'.run|][..|t.run|] == t''.run[..|t.run|];
    assert t''.moves[..|t'.moves|][..|t.moves|] == t''.moves[..|t.moves|];
    forall m | |t.moves| <= m < |t''.moves|
      ensures t''.moves[m].0 in who
    {
      if m < |t'.moves| {
        assert t''.moves[..|t'.moves|][m] == t'.moves[m];
      }
    }
  }

  lemma Moves(t: Trace, y: System, n: nat, who: nat, step: Step) returns (t': Trace, y': System)
    requires Came(t, y, n) && who < n && Enabled(y, who, step)
    ensures Came(t', y', n) && y' == After(y, who, step) && Extends(t, t', {who}, 1) && t'.run == t.run + [y']
  {
    y' := After(y, who, step);
    t' := Trace(t.run + [y'], t.moves + [(who, step)]);
    forall i | 0 <= i < |t'.moves|
      ensures Next(t'.run[i], t'.moves[i].0, t'.moves[i].1, t'.run[i + 1])
    {
      if i < |t.moves| {
        assert Next(t.run[i], t.moves[i].0, t.moves[i].1, t.run[i + 1]);
      }
    }
  }

  /** A new system of `n` servers. */
  lemma Starts(n: nat) returns (t: Trace, y: System)
    requires n > 0
    ensures Came(t, y, n) && |t.run| == 1
    ensures LeadsWith(y.servers[0], 0, Empty(Ballot(1, 0)))
    ensures forall i :: 1 <= i < n ==> Has(y.servers[i], i, Empty(Ballot(0, i)))
    ensures forall i :: 0 <= i < n ==> Unlearned(y.servers[i]) && y.learners[i] == Learner([], true)
  {
    y := System(seq(n, i requires 0 <= i < n => Started(i, i == 0)), seq(n, i => Learner([], true)),
                {}, map[], {}, {}, {}, {}, []);
    forall i | 0 <= i < n
      ensures y.servers[i] == Boot(i, None, y.servers[i].disk.faults, FirstLeads(n)[i])
      ensures Unlearned(y.servers[i])
      ensures i == 0 ==> LeadsWith(y.servers[i], 0, Empty(Ballot(1, 0)))
      ensures i > 0 ==> Has(y.servers[i], i, Empty(Ballot(0, i)))
    {
      StartedIs(i);
    }
    t := Trace([y], []);
  }

  /** All but the servers in `who` are as they were, and no message is lost. */
  ghost predicate Others(y: System, y': System, who: set<nat>) {
    && |y'.servers| == |y.servers| && |y'.learners| == |y.learners| && y.sent <= y'.sent
    && forall i :: 0 <= i < |y.servers| && i !in who ==> y'.servers[i] == y.servers[i]
  }

  // ----- a proposal -----

  /** The leader reads its log length and appends. */
  lemma Opens(t: Trace, y: System, n: nat, l: nat, saved: Saved, e: Entry) returns (t': Trace, y': System)
    requires Came(t, y, n) && l < n && LeadsWith(y.servers[l], l, saved)
    requires e == Entry(|saved.log|, saved.npromised, Operation.Put, e.key, e.value) && e.value != "reject"
    ensures Came(t', y', n) && Extends(t, t', {l}, 2) && Others(y, y', {l}) && y'.learners == y.learners
    ensures LeadsWith(y'.servers[l], l, saved.(log := saved.log + [e])) && SameLearner(y.servers[l], y'.servers[l])
    ensures AcceptMsg(l, e) in y'.sent && (l, e) in y'.rounds
  {
    var t1, y1 := Moves(t, y, n, l, Request(Operation.Put, e.key, e.value));
    assert y1.servers[l] == y.servers[l] && NewEntry(y.servers[l], Operation.Put, e.key, e.value) == e;
    assert e.(ballot := saved.npromised) == e;
    t', y' := Moves(t1, y1, n, l, Propose(e));
    ExtendsBoth(t, t1, t', {l}, 1, 1);
  }

  lemma Delivers(t: Trace, y: System, n: nat, l: nat, p: nat, e: Entry) returns (t': Trace, y': System)
    requires Came(t, y, n) && p < n && p != l && AcceptMsg(l, e) in y.sent
    ensures Came(t', y', n) && Extends(t, t', {p}, 1) && Others(y, y', {p}) && y'.learners == y.learners
    ensures y'.servers[p] == HandleAccept(y.servers[p], e.ballot, e).0 && y'.rounds == y.rounds
    ensures HandleAccept(y.servers[p], e.ballot, e).1.Accepted? ==> AcceptedMsg(p, e) in y'.sent
  {
    t', y' := Moves(t, y, n, p, DeliverAccept(l, e));
  }

  lemma Closes(t: Trace, y: System, n: nat, l: nat, e: Entry, heard: set<nat>) returns (t': Trace, y': System)
    requires Came(t, y, n) && l < n && (l, e) in y.rounds && forall p <- heard :: AcceptedMsg(p, e) in y.sent
    ensures Came(t', y', n) && Extends(t, t', {l}, 1) && Others(y, y', {l}) && y'.learners == y.learners
    ensures y'.servers[l] == EndProposal(y.servers[l], e.index, 1 + |heard|, n).0
  {
    t', y' := Moves(t, y, n, l, CloseRound(e, heard));
  }

  // ----- an election -----

  /** Server `who` is counting these votes, with this in memory. */
  ghost predicate Counting(y: System, who: nat, b: Ballot, saved: Saved, votes: set<nat>) {
    && who < |y.servers| && b.server == who && b in y.elections && y.elections[b] == votes && PrepareMsg(b) in y.sent
    && y.servers[who].id == who && y.servers[who].disk.mem == saved && y.servers[who].disk.faults == []
  }

  lemma Stands(t: Trace, y: System, n: nat, who: nat, saved: Saved, b: Ballot) returns (t': Trace, y': System)
    requires Came(t, y, n) && who < n && Has(y.servers[who], who, saved) && b == Ballot(saved.npromised.term + 1, who)
    ensures Came(t', y', n) && Extends(t, t', {who}, 1) && Others(y, y', {who})
    ensures Counting(y', who, b, saved.(npromised := b), {who}) && SameLearner(y.servers[who], y'.servers[who])
  {
    t', y' := Moves(t, y, n, who, StartElection);
  }

  lemma Grants(t: Trace, y: System, n: nat, who: nat, p: nat, b: Ballot, entries: seq<Entry>)
      returns (t': Trace, y': System)
    requires Came(t, y, n) && p < n && p != who && b.server == who && PrepareMsg(b) in y.sent
    requires HandlePrepare(y.servers[p], b).1 == Promised(b, entries)
    ensures Came(t', y', n) && Extends(t, t', {p}, 1) && Others(y, y', {p}) && y'.elections == y.elections
    ensures y'.servers[p] == HandlePrepare(y.servers[p], b).0 && PromiseMsg(p, b, entries) in y'.sent
  {
    t', y' := Moves(t, y, n, p, DeliverPrepare(b));
  }

  lemma Collects(t: Trace, y: System, n: nat, who: nat, p: nat, b: Ballot, entries: seq<Entry>,
                 saved: Saved, votes: set<nat>, log: seq<Entry>) returns (t': Trace, y': System)
    requires Came(t, y, n) && Counting(y, who, b, saved, votes) && PromiseMsg(p, b, entries) in y.sent
    requires MergeAll(saved.log, entries) == log
    ensures Came(t', y', n) && Extends(t, t', {who}, 1) && Others(y, y', {who})
    ensures Counting(y', who, b, saved.(log := log), votes + {p}) && SameLearner(y.servers[who], y'.servers[who])
  {
    AdoptIsMerge(y.servers[who].disk, entries);
    AdoptWithoutFaults(y.servers[who].disk, entries);
    t', y' := Moves(t, y, n, who, CollectPromise(p, b, entries));
  }

  /** One peer votes, and its promise is collected and merged. */
  lemma Asks(t: Trace, y: System, n: nat, who: nat, p: nat, b: Ballot, entries: seq<Entry>,
             saved: Saved, votes: set<nat>, log: seq<Entry>) returns (t': Trace, y': System)
    requires Came(t, y, n) && p < n && p != who && Counting(y, who, b, saved, votes)
    requires HandlePrepare(y.servers[p], b).1 == Promised(b, entries) && MergeAll(saved.log, entries) == log
    ensures Came(t', y', n) && Extends(t, t', {who, p}, 2) && Others(y, y', {who, p})
    ensures y'.servers[p] == HandlePrepare(y.servers[p], b).0
    ensures Counting(y', who, b, saved.(log := log), votes + {p}) && SameLearner(y.servers[who], y'.servers[who])
  {
    var t1, y1 := Grants(t, y, n, who, p, b, entries);
    t', y' := Collects(t1, y1, n, who, p, b, entries, saved, votes, log);
    ExtendsBy(t, t1, {p}, {who, p}, 1);
    ExtendsBy(t1, t', {who}, {who, p}, 1);
    ExtendsBoth(t, t1, t', {who, p}, 1, 1);
  }

  lemma ExtendsBy(t: Trace, t': Trace, few: set<nat>, who: set<nat>, k: nat)
    requires Extends(t, t', few, k) && few <= who
    ensures Extends(t, t', who, k)
  {
  }

  lemma Counts(t: Trace, y: System, n: nat, who: nat, b: Ballot, saved: Saved, votes: set<nat>)
      returns (t': Trace, y': System)
    requires Came(t, y, n) && Counting(y, who, b, saved, votes) && |votes| >= Majority(n)
    ensures Came(t', y', n) && Extends(t, t', {who}, 1) && Others(y, y', {who})
    ensures LeadsWith(y'.servers[who], who, saved) && SameLearner(y.servers[who], y'.servers[who])
  {
    t', y' := Moves(t, y, n, who, CloseElection(b));
  }

  // ----- an election while the last leader runs -----

  /** Three servers: server 0 leads, server 1 accepts its write, and it is committed. */
  lemma EarlyIsCommitted(e: Entry) returns (t: Trace, y: System)
    requires e == EARLY
    ensures Came(t, y, 3) && |t.run| == 5
    ensures LeadsWith(y.servers[0], 0, Saved([e], e.ballot, map[])) && y.servers[0].commitIndex == 0
    ensures Has(y.servers[2], 2, Empty(Ballot(0, 2))) && Unlearned(y.servers[2]) && y.learners[2] == Learner([], true)
  {
    t, y := Starts(3);
    assert [] + [e] == [e];
    t, y := Opens(t, y, 3, 0, Empty(Ballot(1, 0)), e);
    AcceptsAtZero(y.servers[1], 1, Ballot(0, 1), e);
    t, y := Delivers(t, y, 3, 0, 1, e);
    t, y := Closes(t, y, 3, 0, e, {1});
  }

  /** The last leader votes, and reports none of its own appends. */
  lemma LeaderForgets(s: Server, e: Entry, b: Ballot)
    requires LeadsWith(s, 0, Saved([e], e.ballot, map[])) && Above(b, e.ballot)
    ensures HandlePrepare(s, b).1 == Promised(b, [])
  {
    NoneReported(HandlePrepare(s, b).0.disk.mem, 1);
  }

  /** An interleaved run of three servers: server 0 leads and commits a write that server 1, and
      so a majority, has accepted; then server 2 leads with an empty log. An election that others
      start before the last leader has stopped can lose what a majority accepted. */
  lemma LeaderMustStopFirst() returns (run: seq<System>, moves: seq<(nat, Step)>)
    ensures IsRun(run, moves, FirstLeads(3)) && |run| == 9
    ensures |run[4].servers| == 3 && |run[8].servers| == 3
    ensures
      var s := run[4].servers[0];
      s.role == Leader && s.commitIndex == 0 && s.disk.mem.log == [EARLY]
    ensures run[8].servers[2].role == Leader && run[8].servers[2].disk.mem.log == []
  {
    var e, b := EARLY, Ballot(1, 2);
    var t4, y := EarlyIsCommitted(e);
    assert t4.run[4] == y;
    LeaderForgets(y.servers[0], e, b);
    var t5, t7, t8;
    t5, y := Stands(t4, y, 3, 2, Empty(Ballot(0, 2)), b);
    t7, y := Asks(t5, y, 3, 2, 0, b, [], Empty(b), {2}, []);
    t8, y := Counts(t7, y, 3, 2, b, Empty(b), {2} + {0});
    assert t8.run[..|t7.run|][..|t5.run|][..|t4.run|][4] == t4.run[4];
    run, moves := t8.run, t8.moves;
  }

  // ----- an Accept that outlives its round -----

  const LATE: Entry := Entry(0, Ballot(1, 0), Operation.Put, "k", "late")

  const HELD: Entry := Entry(0, Ballot(1, 1), Operation.Put, "k", "held")

  /** Seven servers: server 0's round ends before any Accept is delivered, and it moves no more. */
  lemma LateIsSent(late: Entry) returns (t: Trace, y: System)
    requires late == LATE
    ensures Came(t, y, 7) && |t.moves| == 3 && forall m :: 0 <= m < 3 ==> t.moves[m].0 == 0
    ensures AcceptMsg(0, late) in y.sent
    ensures Unlearned(y.servers[1]) && forall i :: 1 <= i < 7 ==> Idle(y, i, Ballot(0, i))
  {
    var t0, y0 := Starts(7);
    assert [] + [late] == [late];
    var t2, y2 := Opens(t0, y0, 7, 0, Empty(Ballot(1, 0)), late);
    t, y := Closes(t2, y2, 7, 0, late, {});
    ExtendsBoth(t0, t2, t, {0}, 2, 1);
  }

  /** Server `i` has promised ballot `b`, if at all, and logged nothing. */
  ghost predicate Idle(y: System, i: nat, b: Ballot) {
    i < |y.servers| && Has(y.servers[i], i, Empty(b))
  }

  /** One peer that has logged nothing votes; the other servers but the candidate stay as they are. */
  lemma AsksIdle(t: Trace, y: System, who: nat, p: nat, was: Ballot, b: Ballot, votes: set<nat>)
      returns (t': Trace, y': System)
    requires Came(t, y, 7) && who != p && Idle(y, p, was) && Above(b, was) && Counting(y, who, b, Empty(b), votes)
    ensures Came(t', y', 7) && Extends(t, t', {who, p}, 2) && Others(y, y', {who, p})
    ensures Counting(y', who, b, Empty(b), votes + {p}) && SameLearner(y.servers[who], y'.servers[who])
    ensures Idle(y', p, b)
  {
    EmptyVotes(y.servers[p], p, was, b);
    t', y' := Asks(t, y, 7, who, p, b, [], Empty(b), votes, []);
  }

  lemma HeldStands(t: Trace, y: System, b: Ballot) returns (t': Trace, y': System)
    requires Came(t, y, 7) && b == Ballot(1, 1) && Idle(y, 1, Ballot(0, 1)) && Unlearned(y.servers[1])
    ensures Came(t', y', 7) && Extends(t, t', {1}, 1) && Others(y, y', {1})
    ensures Counting(y', 1, b, Empty(b), {1}) && Unlearned(y'.servers[1])
  {
    t', y' := Stands(t, y, 7, 1, Empty(Ballot(0, 1)), b);
  }

  /** Server 1 is elected by 2, 3 and 4. */
  lemma HeldIsElected(t: Trace, y: System, b: Ballot) returns (t': Trace, y': System)
    requires Came(t, y, 7) && b == Ballot(1, 1) && Unlearned(y.servers[1])
    requires Idle(y, 1, Ballot(0, 1)) && Idle(y, 2, Ballot(0, 2)) && Idle(y, 3, Ballot(0, 3))
    requires Idle(y, 4, Ballot(0, 4))
    ensures Came(t', y', 7) && Extends(t, t', {1, 2, 3, 4}, 8) && Others(y, y', {1, 2, 3, 4})
    ensures LeadsWith(y'.servers[1], 1, Empty(b)) && Unlearned(y'.servers[1])
    ensures Idle(y', 2, b) && Idle(y', 3, b) && Idle(y', 4, b)
  {
    var t1, y1 := HeldStands(t, y, b);
    assert Idle(y1, 2, Ballot(0, 2)) && Idle(y1, 3, Ballot(0, 3)) && Idle(y1, 4, Ballot(0, 4));
    var t2, y2 := AsksIdle(t1, y1, 1, 2, Ballot(0, 2), b, {1});
    var t3, y3 := AsksIdle(t2, y2, 1, 3, Ballot(0, 3), b, {1} + {2});
    var t4, y4 := AsksIdle(t3, y3, 1, 4, Ballot(0, 4), b, {1} + {2} + {3});
    assert {1} + {2} + {3} + {4} == {1, 2, 3, 4};
    t', y' := Counts(t4, y4, 7, 1, b, Empty(b), {1} + {2} + {3} + {4});
    FiveExtend(t, t1, t2, t3, t4, t', 1, 2, 3, 4);
  }

  /** The moves of an election that asks three peers. */
  lemma FiveExtend(t: Trace, t1: Trace, t2: Trace, t3: Trace, t4: Trace, t5: Trace, who: nat, p: nat, q: nat, r: nat)
    requires Extends(t, t1, {who}, 1) && Extends(t1, t2, {who, p}, 2) && Extends(t2, t3, {who, q}, 2)
    requires Extends(t3, t4, {who, r}, 2) && Extends(t4, t5, {who}, 1)
    ensures Extends(t, t5, {who, p, q, r}, 8)
  {
    var all := {who, p, q, r};
    ExtendsBy(t, t1, {who}, all, 1);
    ExtendsBy(t1, t2, {who, p}, all, 2);
    ExtendsBy(t2, t3, {who, q}, all, 2);
    ExtendsBy(t3, t4, {who, r}, all, 2);
    ExtendsBy(t4, t5, {who}, all, 1);
    ExtendsBoth(t, t1, t2, all, 1, 2);
    ExtendsBoth(t, t2, t3, all, 3, 2);
    ExtendsBoth(t, t3, t4, all, 5, 2);
    ExtendsBoth(t, t4, t5, all, 7, 1);
  }

  ghost predicate Holding(y: System, i: nat, p: Ballot, e: Entry) {
    i < |y.servers| && Has(y.servers[i], i, AtZero(p, e))
  }

  lemma DeliversIdle(t: Trace, y: System, l: nat, p: nat, was: Ballot, e: Entry) returns (t': Trace, y': System)
    requires Came(t, y, 7) && p != l && AcceptMsg(l, e) in y.sent && Idle(y, p, was) && AtLeast(e.ballot, was)
    requires e.index == 0
    ensures Came(t', y', 7) && Extends(t, t', {p}, 1) && Others(y, y', {p})
    ensures y'.rounds == y.rounds && Holding(y', p, was, e) && AcceptedMsg(p, e) in y'.sent
  {
    AcceptsAtZero(y.servers[p], p, was, e);
    t', y' := Delivers(t, y, 7, l, p, e);
  }

  lemma HeldIsSent(t: Trace, y: System, held: Entry) returns (t': Trace, y': System)
    requires Came(t, y, 7) && held == HELD && LeadsWith(y.servers[1], 1, Empty(held.ballot)) && Unlearned(y.servers[1])
    ensures Came(t', y', 7) && Extends(t, t', {1}, 2) && Others(y, y', {1})
    ensures LeadsWith(y'.servers[1], 1, Saved([held], held.ballot, map[])) && y'.servers[1].commitIndex == -1
    ensures AcceptMsg(1, held) in y'.sent && (1, held) in y'.rounds
  {
    assert [] + [held] == [held];
    t', y' := Opens(t, y, 7, 1, Empty(held.ballot), held);
  }

  lemma HeldIsClosed(t: Trace, y: System, held: Entry) returns (t': Trace, y': System)
    requires Came(t, y, 7) && held.index == 0 && (1, held) in y.rounds
    requires forall p <- {2, 5, 6} :: AcceptedMsg(p, held) in y.sent
    requires LeadsWith(y.servers[1], 1, Saved([held], held.ballot, map[])) && y.servers[1].commitIndex == -1
    ensures Came(t', y', 7) && Extends(t, t', {1}, 1) && Others(y, y', {1})
    ensures LeadsWith(y'.servers[1], 1, Saved([held], held.ballot, map[])) && y'.servers[1].commitIndex == 0
  {
    t', y' := Closes(t, y, 7, 1, held, {2, 5, 6});
  }

  /** Its write is accepted by 2, 5 and 6, a majority, and committed. */
  lemma HeldIsCommitted(t: Trace, y: System, held: Entry) returns (t': Trace, y': System)
    requires Came(t, y, 7) && held == HELD && LeadsWith(y.servers[1], 1, Empty(held.ballot)) && Unlearned(y.servers[1])
    requires Idle(y, 2, held.ballot) && Idle(y, 5, Ballot(0, 5)) && Idle(y, 6, Ballot(0, 6))
    ensures Came(t', y', 7) && Extends(t, t', {1, 2, 5, 6}, 6) && Others(y, y', {1, 2, 5, 6})
    ensures LeadsWith(y'.servers[1], 1, Saved([held], held.ballot, map[])) && y'.servers[1].commitIndex == 0
    ensures Holding(y', 5, Ballot(0, 5), held) && Holding(y', 6, Ballot(0, 6), held)
  {
    var t1, y1 := HeldIsSent(t, y, held);
    assert Idle(y1, 2, held.ballot) && Idle(y1, 5, Ballot(0, 5)) && Idle(y1, 6, Ballot(0, 6));
    var t2, y2 := DeliversIdle(t1, y1, 1, 2, held.ballot, held);
    var t3, y3 := DeliversIdle(t2, y2, 1, 5, Ballot(0, 5), held);
    var t4, y4 := DeliversIdle(t3, y3, 1, 6, Ballot(0, 6), held);
    t', y' := HeldIsClosed(t4, y4, held);
    RoundExtends(t, t1, t2, t3, t4, t');
  }

  lemma RoundExtends(t: Trace, t1: Trace, t2: Trace, t3: Trace, t4: Trace, t5: Trace)
    requires Extends(t, t1, {1}, 2) && Extends(t1, t2, {2}, 1) && Extends(t2, t3, {5}, 1)
    requires Extends(t3, t4, {6}, 1) && Extends(t4, t5, {1}, 1)
    ensures Extends(t, t5, {1, 2, 5, 6}, 6)
  {
    var all := {1, 2, 5, 6};
    ExtendsBy(t, t1, {1}, all, 2);
    ExtendsBy(t1, t2, {2}, all, 1);
    ExtendsBy(t2, t3, {5}, all, 1);
    ExtendsBy(t3, t4, {6}, all, 1);
    ExtendsBy(t4, t5, {1}, all, 1);
    ExtendsBoth(t, t1, t2, all, 2, 1);
    ExtendsBoth(t, t2, t3, all, 3, 1);
    ExtendsBoth(t, t3, t4, all, 4, 1);
    ExtendsBoth(t, t4, t5, all, 5, 1);
  }

  /** Server 1's election and round, from the end of server 0's round. */
  lemma HeldHistory(t3: Trace, y3: System, late: Entry, held: Entry) returns (t11: Trace, t17: Trace, y17: System)
    requires Came(t3, y3, 7) && held == HELD && AcceptMsg(0, late) in y3.sent
    requires Unlearned(y3.servers[1]) && forall i :: 1 <= i < 7 ==> Idle(y3, i, Ballot(0, i))
    ensures Came(t17, y17, 7) && Extends(t3, t11, {1, 2, 3, 4}, 8) && Extends(t11, t17, {1, 2, 5, 6}, 6)
    ensures LeadsWith(y17.servers[1], 1, Saved([held], held.ballot, map[])) && y17.servers[1].commitIndex == 0
    ensures AcceptMsg(0, late) in y17.sent && Idle(y17, 3, held.ballot) && Idle(y17, 4, held.ballot)
    ensures Holding(y17, 5, Ballot(0, 5), held) && Holding(y17, 6, Ballot(0, 6), held)
  {
    assert Idle(y3, 1, Ballot(0, 1)) && Idle(y3, 2, Ballot(0, 2)) && Idle(y3, 3, Ballot(0, 3)) &&
      Idle(y3, 4, Ballot(0, 4));
    assert Idle(y3, 5, Ballot(0, 5)) && Idle(y3, 6, Ballot(0, 6));
    var y11;
    t11, y11 := HeldIsElected(t3, y3, held.ballot);
    t17, y17 := HeldIsCommitted(t11, y11, held);
  }

  /** An Accept of a lower ballot overwrites the slot of a server that has promised nothing. */
  lemma Overwritten(s: Server, id: nat, held: Entry, late: Entry)
    requires Has(s, id, AtZero(Ballot(0, id), held)) && late.index == 0 && late.ballot.term > 0
    ensures Has(HandleAccept(s, late.ballot, late).0, id, AtZero(Ballot(0, id), late))
  {
    assert [held][0 := late] == [late];
    assert map[0 := held.ballot][0 := late.ballot] == map[0 := late.ballot];
  }

  /** The Accept of server 0's ended round reaches 5 and 6. */
  lemma LateArrives(t: Trace, y: System, late: Entry, held: Entry) returns (t': Trace, y': System)
    requires Came(t, y, 7) && late == LATE && AcceptMsg(0, late) in y.sent
    requires Holding(y, 5, Ballot(0, 5), held) && Holding(y, 6, Ballot(0, 6), held)
    ensures Came(t', y', 7) && Extends(t, t', {5, 6}, 2) && Others(y, y', {5, 6})
    ensures Holding(y', 5, Ballot(0, 5), late) && Holding(y', 6, Ballot(0, 6), late)
  {
    Overwritten(y.servers[5], 5, held, late);
    Overwritten(y.servers[6], 6, held, late);
    var t1, y1 := Delivers(t, y, 7, 0, 5, late);
    t', y' := Delivers(t1, y1, 7, 0, 6, late);
    ExtendsBy(t, t1, {5}, {5, 6}, 1);
    ExtendsBy(t1, t', {6}, {5, 6}, 1);
    ExtendsBoth(t, t1, t', {5, 6}, 1, 1);
  }

  /** Server 3 is elected by 4, 5 and 6. */
  lemma LateIsElected(t: Trace, y: System, late: Entry, p: Ballot, b: Ballot) returns (t': Trace, y': System)
    requires Came(t, y, 7) && late == LATE && p == Ballot(1, 1) && b == Ballot(2, 3)
    requires Idle(y, 3, p) && Idle(y, 4, p) && Holding(y, 5, Ballot(0, 5), late) && Holding(y, 6, Ballot(0, 6), late)
    ensures Came(t', y', 7) && Extends(t, t', {3, 4, 5, 6}, 8)
    ensures y'.servers[3].role == Leader && y'.servers[3].disk.mem.log == [late]
  {
    EmptyVotes(y.servers[4], 4, p, b);
    AtZeroVotes(y.servers[5], 5, Ballot(0, 5), late, b);
    AtZeroVotes(y.servers[6], 6, Ballot(0, 6), late, b);
    MergeFirst(late);
    MergeCovered([late], late);
    var t1, y1 := Stands(t, y, 7, 3, Empty(p), b);
    var t2, y2 := Asks(t1, y1, 7, 3, 4, b, [], Empty(b), {3}, []);
    var t3, y3 := Asks(t2, y2, 7, 3, 5, b, [late], Empty(b), {3} + {4}, [late]);
    var t4, y4 := Asks(t3, y3, 7, 3, 6, b, [late], Saved([late], b, map[]), {3} + {4} + {5}, [late]);
    assert {3} + {4} + {5} + {6} == {3, 4, 5, 6};
    t', y' := Counts(t4, y4, 7, 3, b, Saved([late], b, map[]), {3} + {4} + {5} + {6});
    FiveExtend(t, t1, t2, t3, t4, t', 3, 4, 5, 6);
  }

  /** An interleaved run of seven servers in which rounds follow each other and leaders stop before
      the next election, but for one Accept. Server 0 moves only before state 3, when its round has
      ended. Server 1 is elected and commits a write accepted by 2, 5 and 6, and moves only before
      state 17. Then the Accept of server 0 reaches 5 and 6, which have not promised anything and
      overwrite the slot; and server 3 leads with server 0's entry in place of the write. */
  lemma RoundsMustNotOverlap() returns (run: seq<System>, moves: seq<(nat, Step)>)
    ensures IsRun(run, moves, FirstLeads(7)) && |run| == 28 && |run[17].servers| == 7 && |run[27].servers| == 7
    ensures forall m :: 0 <= m < 27 ==> (moves[m].0 == 0 <==> m < 3) && (moves[m].0 == 1 ==> m < 17)
    ensures
      var s := run[17].servers[1];
      s.role == Leader && s.commitIndex == 0 && s.disk.mem.log == [HELD]
    ensures run[27].servers[3].role == Leader && run[27].servers[3].disk.mem.log == [LATE]
  {
    var late, held := LATE, HELD;
    var t3, y3 := LateIsSent(late);
    var t11, t17, y17 := HeldHistory(t3, y3, late, held);
    var t19, y19 := LateArrives(t17, y17, late, held);
    var t27, y27 := LateIsElected(t19, y19, late, held.ballot, Ballot(2, 3));
    run, moves := t27.run, t27.moves;
    SegmentsJoin(t3, t11, t17, t19, t27);
  }

  /** The moves of the five parts, and the state after the third. */
  lemma SegmentsJoin(t3: Trace, t11: Trace, t17: Trace, t19: Trace, t27: Trace)
    requires |t3.moves| == 3 && |t3.run| == 4 && forall m :: 0 <= m < 3 ==> t3.moves[m].0 == 0
    requires Extends(t3, t11, {1, 2, 3, 4}, 8) && Extends(t11, t17, {1, 2, 5, 6}, 6)
    requires Extends(t17, t19, {5, 6}, 2) && Extends(t19, t27, {3, 4, 5, 6}, 8)
    ensures |t27.moves| == 27 && |t27.run| == 28 && t27.run[17] == t17.run[17]
    ensures forall m :: 0 <= m < 27 ==> (t27.moves[m].0 == 0 <==> m < 3) && (t27.moves[m].0 == 1 ==> m < 17)
  {
    var early, late := {1, 2, 3, 4, 5, 6}, {3, 4, 5, 6};
    ExtendsBy(t17, t19, {5, 6}, late, 2);
    ExtendsBoth(t17, t19, t27, late, 2, 8);
    ExtendsBy(t3, t11, {1, 2, 3, 4}, early, 8);
    ExtendsBy(t11, t17, {1, 2, 5, 6}, early, 6);
    ExtendsBoth(t3, t11, t17, early, 8, 6);
    forall m | 0 <= m < 27
      ensures (t27.moves[m].0 == 0 <==> m < 3) && (t27.moves[m].0 == 1 ==> m < 17)
    {
      if m < 17 {
        assert t27.moves[..17][m] == t17.moves[m];
        if m < 3 {
          assert t17.moves[..3][m] == t3.moves[m];
        }
      }
    }
    assert t27.run[..18][17] == t17.run[17];
  }

  // ----- a learner that skips an index -----

  /** A server with an empty log hears of a commit at index 0. */
  lemma Hears(t: Trace, y: System, n: nat, who: nat, b: Ballot) returns (t': Trace, y': System)
    requires Came(t, y, n) && who < n && HeartbeatMsg(b, 0) in y.sent && y.learners[who] == Learner([], true)
    requires Has(y.servers[who], who, Empty(Ballot(0, who))) && Unlearned(y.servers[who]) && b.term >= 1
    ensures Came(t', y', n) && |t'.run| == |t.run| + 1 && y'.learners[who] == Learner([], true)
    ensures y'.servers[who].disk == y.servers[who].disk
    ensures y'.servers[who].commitIndex == 0 && y'.servers[who].lastApplied == -1
  {
    t', y' := Moves(t, y, n, who, DeliverHeartbeat(b, 0));
  }

  lemma Skips(t: Trace, y: System, n: nat, who: nat) returns (t': Trace, y': System)
    requires Came(t, y, n) && who < n && y.learners[who] == Learner([], true) && y.servers[who].disk.mem.log == []
    requires y.servers[who].commitIndex == 0 && y.servers[who].lastApplied == -1
    ensures Came(t', y', n) && |t'.run| == |t.run| + 1
    ensures y'.servers[who].lastApplied == y'.servers[who].commitIndex == 0 && y'.learners[who] == Learner([], false)
  {
    assert Ready(y.servers[who]) == [];
    t', y' := Moves(t, y, n, who, Apply);
  }

  /** An interleaved run in which server 2 hears of the commit before it has the entry: its learner
      passes index 0 without applying anything. */
  lemma IndexIsSkipped() returns (run: seq<System>, moves: seq<(nat, Step)>)
    ensures IsRun(run, moves, FirstLeads(3)) && |run| == 8 && |run[7].servers| == |run[7].learners| == 3
    ensures run[7].servers[2].lastApplied == run[7].servers[2].commitIndex == 0
    ensures !run[7].learners[2].reached && run[7].learners[2].applied == []
  {
    var e := EARLY;
    var t, y := EarlyIsCommitted(e);
    t, y := Moves(t, y, 3, 0, SendHeartbeat);
    t, y := Hears(t, y, 3, 2, e.ballot);
    t, y := Skips(t, y, 3, 2);
    run, moves := t.run, t.moves;
  }
}
