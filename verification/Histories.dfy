/** Building runs of whole rounds in which no save fails, step by step. */
module Histories {
  import opened Types
  import opened Persistence
  import opened Quorums
  import opened Handlers
  import opened Merging
  import F = Failover

  // ----- servers whose saves succeed -----

  /** The first write of server 0, when that is the bootstrap leader. */
  const EARLY: Entry := Entry(0, Ballot(1, 0), Operation.Put, "k", "v")

  function Started(id: nat, lead: bool): Server {
    Boot(id, None, [], lead)
  }

  /** A follower, told by what it has in memory. */
  ghost predicate Has(s: Server, id: nat, saved: Saved) {
    s.id == id && s.disk.mem == saved && s.disk.faults == [] && s.role == Follower
  }

  ghost predicate LeadsWith(s: Server, id: nat, saved: Saved) {
    s.id == id && s.disk.mem == saved && s.disk.faults == [] && s.role == Leader
  }

  /** The learner of the server has done nothing yet. */
  ghost predicate Unlearned(s: Server) {
    s.commitIndex == s.lastApplied == -1 && s.table == map[]
  }

  ghost predicate SameLearner(s: Server, s': Server) {
    s'.commitIndex == s.commitIndex && s'.lastApplied == s.lastApplied && s'.table == s.table
  }

  /** Nothing logged; one entry accepted at index 0, or at index 1 above a hole. */
  function Empty(b: Ballot): Saved { Saved([], b, map[]) }

  function AtZero(b: Ballot, e: Entry): Saved { Saved([e], b, map[0 := e.ballot]) }

  function AtOne(b: Ballot, e: Entry): Saved { Saved([BLANK, e], b, map[1 := e.ballot]) }

  lemma StartedIs(id: nat)
    ensures Has(Started(id, false), id, Empty(Ballot(0, id))) && Unlearned(Started(id, false))
    ensures LeadsWith(Started(id, true), id, Empty(Ballot(1, id))) && Unlearned(Started(id, true))
  {
  }

  lemma {:induction false} NoneReported(s: Saved, n: nat)
    requires s.accepted == map[] && n <= |s.log|
    ensures ReportedUpTo(s, n) == []
  {
    if n > 0 {
      NoneReported(s, n - 1);
    }
  }

  lemma Promises(s: Server, id: nat, saved: Saved, b: Ballot)
    requires Has(s, id, saved) && Above(b, saved.npromised)
    ensures Has(HandlePrepare(s, b).0, id, saved.(npromised := b))
    ensures HandlePrepare(s, b).1 == Promised(b, Reported(saved.(npromised := b)))
  {
  }

  lemma EmptyVotes(s: Server, id: nat, p: Ballot, b: Ballot)
    requires Has(s, id, Empty(p)) && Above(b, p)
    ensures Has(HandlePrepare(s, b).0, id, Empty(b)) && HandlePrepare(s, b).1 == Promised(b, [])
  {
    Promises(s, id, Empty(p), b);
    NoneReported(Empty(b), 0);
  }

  lemma AtZeroVotes(s: Server, id: nat, p: Ballot, e: Entry, b: Ballot)
    requires Has(s, id, AtZero(p, e)) && Above(b, p)
    ensures Has(HandlePrepare(s, b).0, id, AtZero(b, e)) && HandlePrepare(s, b).1 == Promised(b, [e])
  {
    Promises(s, id, AtZero(p, e), b);
    assert ReportedUpTo(AtZero(b, e), 0) == [];
  }

  lemma AtOneVotes(s: Server, id: nat, p: Ballot, e: Entry, b: Ballot)
    requires Has(s, id, AtOne(p, e)) && Above(b, p)
    ensures Has(HandlePrepare(s, b).0, id, AtOne(b, e)) && HandlePrepare(s, b).1 == Promised(b, [e])
  {
    Promises(s, id, AtOne(p, e), b);
    assert ReportedUpTo(AtOne(b, e), 0) == [] && ReportedUpTo(AtOne(b, e), 1) == [];
  }

  lemma AcceptsAtZero(s: Server, id: nat, p: Ballot, e: Entry)
    requires Has(s, id, Empty(p)) && AtLeast(e.ballot, p) && e.index == 0
    ensures Has(HandleAccept(s, e.ballot, e).0, id, AtZero(p, e)) && HandleAccept(s, e.ballot, e).1.Accepted?
  {
    assert Written([], 0, e) == [e];
  }

  lemma AcceptsAtOne(s: Server, id: nat, p: Ballot, e: Entry)
    requires Has(s, id, Empty(p)) && AtLeast(e.ballot, p) && e.index == 1
    ensures Has(HandleAccept(s, e.ballot, e).0, id, AtOne(p, e)) && HandleAccept(s, e.ballot, e).1.Accepted?
  {
    assert Written([], 1, e) == [BLANK, e];
  }

  lemma InstallsAtZero(s: Server, id: nat, p: Ballot, e: Entry)
    requires Has(s, id, Empty(p)) && e.index == 0
    ensures Has(HandleStateTransfer(s, [e]).0, id, AtZero(p, e))
  {
    assert [e][1..] == [] && Written([], 0, e) == [e];
    assert Install(s.disk, [e]).0 == InstallOne(s.disk, e).0;
  }

  // ----- counting and merging -----

  lemma {:induction false} AllVote(replies: seq<PrepareReply>)
    requires forall r <- replies :: r.Promised?
    ensures Votes(replies) == |replies|
  {
    if replies != [] {
      AllVote(replies[1..]);
    }
  }

  lemma {:induction false} AllAccept(replies: seq<AcceptReply>)
    requires forall r <- replies :: r.Accepted?
    ensures Accepts(replies) == |replies|
  {
    if replies != [] {
      AllAccept(replies[1..]);
    }
  }

  lemma {:induction false} AdoptWithoutFaults(d: Durable, entries: seq<Entry>)
    requires d.faults == []
    ensures Adopt(d, entries).faults == []
    decreases |entries|
  {
    if entries != [] {
      AdoptWithoutFaults(AdoptOne(d, entries[0]), entries[1..]);
    }
  }

  /** A covered entry, once or twice, changes nothing. */
  lemma MergeCovered(log: seq<Entry>, e: Entry)
    requires e.index < |log| && !Above(e.ballot, log[e.index].ballot)
    ensures MergeAll(log, [e]) == MergeAll(log, [e, e]) == log
  {
    assert [e, e][1..] == [e] && [e][1..] == [];
    assert MergeAll(log, [e]) == MergeAll(log, []);
  }

  lemma MergeFirst(e: Entry)
    requires e.index == 0
    ensures MergeAll([], [e]) == [e]
  {
    assert [e][1..] == [];
    assert MergeOne([], e) == Written([], 0, e) == [e];
    assert MergeAll([], [e]) == MergeAll([e], []);
  }

  /** The peers in `answered` vote for `b` and report these entries. */
  ghost predicate Grant(servers: seq<Server>, b: Ballot, answered: seq<nat>, entries: seq<Entry>) {
    && (forall k :: 0 <= k < |answered| ==> answered[k] < |servers|)
    && (forall r <- F.PrepareReplies(servers, b, answered) :: r.Promised?)
    && Carried(F.PrepareReplies(servers, b, answered)) == entries
  }

  lemma NobodyGrants(servers: seq<Server>, b: Ballot)
    ensures Grant(servers, b, [], [])
  {
  }

  /** One more peer in front. */
  lemma GrantMore(servers: seq<Server>, b: Ballot, p: nat, e: seq<Entry>, answered: seq<nat>, entries: seq<Entry>)
    requires Grant(servers, b, answered, entries) && p < |servers| && HandlePrepare(servers[p], b).1 == Promised(b, e)
    ensures Grant(servers, b, [p] + answered, e + entries)
  {
    var replies := F.PrepareReplies(servers, b, [p] + answered);
    assert replies[1..] == F.PrepareReplies(servers, b, answered);
    assert replies[0] == Promised(b, e);
    forall r <- replies
      ensures r.Promised?
    {
      var k :| 0 <= k < |replies| && replies[k] == r;
      assert k > 0 ==> replies[k] == replies[1..][k - 1];
    }
  }

  lemma TwoGrant(servers: seq<Server>, b: Ballot, p: nat, q: nat, e: seq<Entry>, f: seq<Entry>)
    requires p < |servers| && HandlePrepare(servers[p], b).1 == Promised(b, e)
    requires q < |servers| && HandlePrepare(servers[q], b).1 == Promised(b, f)
    ensures Grant(servers, b, [p, q], e + f)
  {
    NobodyGrants(servers, b);
    GrantMore(servers, b, q, f, [], []);
    GrantMore(servers, b, p, e, [q] + [], f + []);
    assert [p] + ([q] + []) == [p, q] && e + (f + []) == e + f;
  }

  lemma ThreeGrant(servers: seq<Server>, b: Ballot, p: nat, q: nat, r: nat, e: seq<Entry>, f: seq<Entry>, g: seq<Entry>)
    requires p < |servers| && HandlePrepare(servers[p], b).1 == Promised(b, e)
    requires q < |servers| && HandlePrepare(servers[q], b).1 == Promised(b, f)
    requires r < |servers| && HandlePrepare(servers[r], b).1 == Promised(b, g)
    ensures Grant(servers, b, [p, q, r], e + (f + g))
  {
    TwoGrant(servers, b, q, r, f, g);
    GrantMore(servers, b, p, e, [q, r], f + g);
    assert [p] + [q, r] == [p, q, r];
  }

  lemma ThreePeers(c: F.Cluster, who: nat, p: nat, q: nat, r: nat)
    requires forall i <- {who, p, q, r} :: i < |c.servers| && i !in c.stopped
    requires p != q && p != r && q != r && who !in {p, q, r}
    ensures F.Peers(c, who, {p, q, r}, [p, q, r])
  {
  }

  // ----- runs of whole rounds, step by step -----

  datatype History = History(run: seq<F.Cluster>, steps: seq<F.Step>)

  /** The history is one of rounds and has come to `c`. */
  ghost predicate At(h: History, c: F.Cluster) {
    F.IsSteps(h.run, h.steps) && h.run[|h.steps|] == c
  }

  ghost predicate NoCrash(h: History) {
    forall i :: 0 <= i < |h.steps| ==> !h.steps[i].Crash?
  }

  lemma IsARun(h: History, c: F.Cluster)
    requires At(h, c) && NoCrash(h) && F.Init(h.run[0])
    ensures F.IsRun(h.run, h.steps)
  {
  }

  /** The history has come one step further, to `c'`. */
  ghost predicate Further(h: History, h': History, c': F.Cluster) {
    At(h', c') && h'.run == h.run + [c'] && |h'.run| == |h.run| + 1
  }

  /** And that step was no crash. */
  ghost predicate Longer(h: History, h': History, c': F.Cluster) {
    Further(h, h', c') && (NoCrash(h) ==> NoCrash(h'))
  }

  lemma Then(h: History, c: F.Cluster, step: F.Step, c': F.Cluster) returns (h': History)
    requires At(h, c) && F.Next(c, step, c')
    ensures Further(h, h', c') && (!step.Crash? ==> Longer(h, h', c'))
  {
    h' := History(h.run + [c'], h.steps + [step]);
    forall i | 0 <= i < |h'.steps|
      ensures F.Next(h'.run[i], h'.steps[i], h'.run[i + 1])
    {
      if i < |h.steps| {
        assert F.Next(h.run[i], h.steps[i], h.run[i + 1]);
      }
    }
  }

  /** A new cluster of `n` servers with `lead` started as leader. */
  lemma Begins(n: nat, lead: nat) returns (h: History, c: F.Cluster)
    requires lead < n
    ensures At(h, c) && NoCrash(h) && h.run == [c] && F.StartsWith(c, Some(lead))
    ensures |c.servers| == n && c.leader == Some(lead) && c.stopped == {}
    ensures forall i :: 0 <= i < n ==>
      Unlearned(c.servers[i]) && (i != lead ==> Has(c.servers[i], i, Empty(Ballot(0, i))))
    ensures LeadsWith(c.servers[lead], lead, Empty(Ballot(1, lead)))
  {
    var servers := seq(n, i requires 0 <= i < n => Started(i, i == lead));
    c := F.Cluster(servers, Some(lead), {}, {Ballot(1, lead)}, {}, {}, {});
    forall i | 0 <= i < n
      ensures c.servers[i] == Started(i, Some(lead) == Some(i))
      ensures Unlearned(c.servers[i]) && (i != lead ==> Has(c.servers[i], i, Empty(Ballot(0, i))))
      ensures i == lead ==> LeadsWith(c.servers[i], lead, Empty(Ballot(1, lead)))
    {
      StartedIs(i);
    }
    h := History([c], []);
  }

  lemma Stops(h: History, c: F.Cluster, who: nat) returns (h': History, c': F.Cluster)
    requires At(h, c) && c.leader == Some(who)
    ensures Longer(h, h', c') && c'.leader == None && c'.stopped == c.stopped + {who} && c'.servers == c.servers
  {
    c' := c.(stopped := c.stopped + {who}, leader := None);
    h' := Then(h, c, F.Stop(who), c');
  }

  lemma StepsDown(h: History, c: F.Cluster, l: nat, saved: Saved) returns (h': History, c': F.Cluster)
    requires At(h, c) && c.leader == Some(l) && l < |c.servers| && LeadsWith(c.servers[l], l, saved)
    ensures Longer(h, h', c') && |c'.servers| == |c.servers| && c' == c.(servers := c.servers[l := c'.servers[l]])
    ensures Has(c'.servers[l], l, saved)
  {
    c' := c.(servers := c.servers[l := StepDown(c.servers[l])]);
    h' := Then(h, c, F.LoseContact, c');
  }

  lemma Learns(h: History, c: F.Cluster, who: nat) returns (h': History, c': F.Cluster)
    requires At(h, c) && who < |c.servers|
    ensures Longer(h, h', c') && c' == c.(servers := c.servers[who := ApplyCommitted(c.servers[who])])
  {
    c' := c.(servers := c.servers[who := ApplyCommitted(c.servers[who])]);
    h' := Then(h, c, F.Learn(who), c');
  }

  /** A heartbeat of the leader. */
  lemma Beats(h: History, c: F.Cluster, to: nat) returns (h': History, c': F.Cluster)
    requires At(h, c) && F.Leads(c) && F.Peers(c, c.leader.value, {to}, [])
    ensures Longer(h, h', c')
    ensures
      var l := c.servers[c.leader.value];
      c' == c.(servers := c.servers[to := HandleHeartbeat(c.servers[to], l.disk.mem.npromised, l.commitIndex).0])
  {
    var l := c.servers[c.leader.value];
    c' := c.(servers := c.servers[to := HandleHeartbeat(c.servers[to], l.disk.mem.npromised, l.commitIndex).0]);
    h' := Then(h, c, F.Beat(to), c');
  }

  lemma Transfers(h: History, c: F.Cluster, to: nat, from: nat, upTo: nat, missing: seq<Entry>)
      returns (h': History, c': F.Cluster)
    requires At(h, c) && F.Leads(c) && F.Peers(c, c.leader.value, {to}, [])
    requires missing == MissingEntries(c.servers[c.leader.value].disk.mem.log, from, upTo)
    ensures Longer(h, h', c') && c' == c.(servers := c.servers[to := HandleStateTransfer(c.servers[to], missing).0])
  {
    c' := c.(servers := c.servers[to := HandleStateTransfer(c.servers[to], missing).0]);
    h' := Then(h, c, F.Transfer(to, from, upTo), c');
  }

  /** What an election of `who` does to the others. */
  ghost predicate OthersVoted(c: F.Cluster, c': F.Cluster, who: nat, reached: set<nat>, b: Ballot) {
    && |c'.servers| == |c.servers| && c'.stopped == c.stopped
    && forall i :: 0 <= i < |c.servers| && i != who ==>
         c'.servers[i] == if i in reached then HandlePrepare(c.servers[i], b).0 else c.servers[i]
  }

  lemma WinsWith(s: Server, id: nat, saved: Saved, b: Ballot, replies: seq<PrepareReply>, n: nat)
    requires Has(s, id, saved) && (forall r <- replies :: r.Promised?) && 1 + |replies| >= Majority(n)
    requires b == Ballot(saved.npromised.term + 1, id)
    ensures
      var t := Election(s, replies, n).0;
      && BeginElection(s).1 == Some(b)
      && LeadsWith(t, id, Saved(MergeAll(saved.log, Carried(replies)), b, saved.accepted))
      && SameLearner(s, t)
  {
    AllVote(replies);
    ElectionMerges(s, replies, n);
    AdoptWithoutFaults(BeginElection(s).0.disk, Carried(replies));
  }

  /** An election won by the votes in `answered`, with the merged log `log`. */
  lemma Wins(h: History, c: F.Cluster, who: nat, reached: set<nat>, answered: seq<nat>, saved: Saved, b: Ballot,
             entries: seq<Entry>, log: seq<Entry>) returns (h': History, c': F.Cluster)
    requires At(h, c) && F.Peers(c, who, reached, answered) && (c.leader.None? || c.leader == Some(who))
    requires Has(c.servers[who], who, saved) && b == Ballot(saved.npromised.term + 1, who)
    requires Grant(c.servers, b, answered, entries) && 1 + |answered| >= Majority(|c.servers|)
    requires MergeAll(saved.log, entries) == log
    ensures Longer(h, h', c') && c'.leader == Some(who) && OthersVoted(c, c', who, reached, b)
    ensures LeadsWith(c'.servers[who], who, Saved(log, b, saved.accepted))
    ensures SameLearner(c.servers[who], c'.servers[who])
  {
    WinsWith(c.servers[who], who, saved, b, F.PrepareReplies(c.servers, b, answered), |c.servers|);
    c' := F.AfterElection(c, who, reached, answered);
    h' := Then(h, c, F.Elect(who, reached, answered), c');
  }

  /** An election in which the candidate hears nobody. */
  lemma Loses(h: History, c: F.Cluster, who: nat, saved: Saved, b: Ballot) returns (h': History, c': F.Cluster)
    requires At(h, c) && who < |c.servers| && who !in c.stopped && c.leader.None? && |c.servers| > 1
    requires Has(c.servers[who], who, saved) && b == Ballot(saved.npromised.term + 1, who)
    ensures Longer(h, h', c') && c'.leader == None && OthersVoted(c, c', who, {}, b)
    ensures Has(c'.servers[who], who, saved.(npromised := b))
  {
    assert F.PrepareReplies(c.servers, b, []) == [];
    c' := F.AfterElection(c, who, {}, []);
    h' := Then(h, c, F.Elect(who, {}, []), c');
  }

  /** What a proposal does to the others. */
  ghost predicate OthersAccepted(c: F.Cluster, c': F.Cluster, l: nat, reached: set<nat>, e: Entry) {
    && |c'.servers| == |c.servers| && c'.stopped == c.stopped && c'.leader == c.leader
    && forall i :: 0 <= i < |c.servers| && i != l ==>
         c'.servers[i] == if i in reached then HandleAccept(c.servers[i], e.ballot, e).0 else c.servers[i]
  }

  /** The leader can propose this entry. */
  ghost predicate CanPropose(c: F.Cluster, l: nat, saved: Saved, e: Entry, reached: set<nat>, answered: seq<nat>) {
    && c.leader == Some(l) && F.Peers(c, l, reached, answered) && F.Proposable(e.op, e.key, e.value)
    && LeadsWith(c.servers[l], l, saved) && e.index == |saved.log| && e.ballot == saved.npromised
  }

  /** A proposal that reaches some peers, none of which answers. */
  lemma Proposes(h: History, c: F.Cluster, l: nat, saved: Saved, e: Entry, reached: set<nat>)
      returns (h': History, c': F.Cluster)
    requires At(h, c) && CanPropose(c, l, saved, e, reached, [])
    ensures Longer(h, h', c') && OthersAccepted(c, c', l, reached, e)
  {
    assert e == NewEntry(c.servers[l], e.op, e.key, e.value);
    c' := F.AfterProposal(c, e.op, e.key, e.value, reached, []);
    h' := Then(h, c, F.Propose(e.op, e.key, e.value, reached, []), c');
  }

  /** A proposal that enough peers accept. */
  lemma Commits(h: History, c: F.Cluster, l: nat, saved: Saved, e: Entry, reached: set<nat>, answered: seq<nat>)
      returns (h': History, c': F.Cluster)
    requires At(h, c) && CanPropose(c, l, saved, e, reached, answered) && Unlearned(c.servers[l])
    requires 1 + |answered| >= Majority(|c.servers|)
    requires forall p <- reached :: HandleAccept(c.servers[p], e.ballot, e).1.Accepted?
    ensures Longer(h, h', c') && OthersAccepted(c, c', l, reached, e) && e in c'.acked
    ensures LeadsWith(c'.servers[l], l, saved.(log := saved.log + [e])) && c'.servers[l].commitIndex == e.index
    ensures c'.servers[l].lastApplied == -1 && c'.servers[l].table == map[]
  {
    assert e == NewEntry(c.servers[l], e.op, e.key, e.value);
    AllAccept(F.AcceptReplies(c.servers, e, answered));
    c' := F.AfterProposal(c, e.op, e.key, e.value, reached, answered);
    h' := Then(h, c, F.Propose(e.op, e.key, e.value, reached, answered), c');
  }
}
