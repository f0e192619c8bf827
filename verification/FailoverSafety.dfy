/** Entries accepted by a majority survive every failover of the runs of Failover.dfy. */
module FailoverSafety {
  import opened Types
  import opened Persistence
  import opened Quorums
  import opened Handlers
  import opened Merging
  import opened Failover

  function Size(c: Cluster): nat { |c.servers| }

  /** The servers that have promised ballot `b` or above for good. */
  ghost function Pledgers(c: Cluster, b: Ballot): set<nat> {
    set p | p in Everyone(Size(c)) && Pledged(c.servers[p].disk, b)
  }

  /** The proposer of `e` and the servers that hold it as an accepted slot. */
  ghost function Holders(c: Cluster, e: Entry): set<nat> {
    set p | p in Everyone(Size(c)) && (p == e.ballot.server || Holds(c.servers[p].disk, e))
  }

  ghost predicate ServersOk(c: Cluster) {
    forall i :: 0 <= i < Size(c) ==> c.servers[i].id == i && Good(c.servers[i].disk, c.proposed)
  }

  ghost predicate ProposalsOk(c: Cluster) {
    && Topped(c.proposed, c.chosen) && c.acked <= c.chosen
    && (forall x <- c.proposed :: x.ballot in c.ballots)
    && (forall x <- c.proposed, y <- c.proposed :: x.index == y.index && x.ballot == y.ballot ==> x == y)
  }

  ghost predicate BallotOk(c: Cluster, b: Ballot) {
    && b.term >= 1 && b.server < Size(c)
    && (b.server in c.stopped || c.leader == Some(b.server))
    && (b == Ballot(1, 0) || |Pledgers(c, b)| >= Majority(Size(c)))
  }

  ghost predicate BallotsOk(c: Cluster) {
    forall b <- c.ballots :: BallotOk(c, b)
  }

  ghost predicate HeldByMajority(c: Cluster) {
    forall e <- c.chosen :: |Holders(c, e)| >= Majority(Size(c))
  }

  /** What the last leader has. While it leads: a ballot that won, everything it proposed under
      that ballot below its log's end, and every chosen entry. Always: no ballot above its promise,
      or above the promise in its file if it has one, and its own chosen entries in both. */
  ghost predicate TopOk(c: Cluster, l: Server) {
    && (l.role == Leader ==>
          && l.disk.mem.npromised in c.ballots && l.disk.mem.npromised.server == l.id
          && (forall x <- c.proposed :: x.ballot == l.disk.mem.npromised ==> x.index < |l.disk.mem.log|)
          && (forall e <- c.chosen :: HasSlot(l.disk.mem, e)))
    && (forall b <- c.ballots :: AtLeast(l.disk.mem.npromised, b))
    && (l.disk.file.Some? ==> forall b <- c.ballots :: Pledged(l.disk, b))
    && (forall e <- c.chosen :: e.ballot.server == l.id ==> Stores(l.disk, e))
  }

  ghost predicate LeaderOk(c: Cluster) {
    c.leader.Some? ==>
      c.leader.value < Size(c) && c.leader.value !in c.stopped && TopOk(c, c.servers[c.leader.value])
  }

  ghost predicate Inv(c: Cluster) {
    ServersOk(c) && ProposalsOk(c) && BallotsOk(c) && HeldByMajority(c) && LeaderOk(c)
  }

  // ----- steps that only change what servers have -----

  ghost predicate AllKeep(c: Cluster, c': Cluster) {
    Size(c') == Size(c) && forall i :: 0 <= i < Size(c) ==> Keeps(c.servers[i].disk, c'.servers[i].disk, c.chosen)
  }

  lemma PledgersStay(c: Cluster, c': Cluster, b: Ballot)
    requires AllKeep(c, c')
    ensures |Pledgers(c, b)| <= |Pledgers(c', b)|
  {
    SubsetSize(Pledgers(c, b), Pledgers(c', b));
  }

  /** Ballots stay in order when servers keep their pledges and no leader is lost. */
  lemma BallotsStay(c: Cluster, c': Cluster)
    requires BallotsOk(c) && AllKeep(c, c')
    requires c.stopped <= c'.stopped
    requires c.leader.Some? ==> c'.leader == c.leader || c.leader.value in c'.stopped
    ensures forall b <- c.ballots :: BallotOk(c', b)
  {
    forall b <- c.ballots
      ensures BallotOk(c', b)
    {
      assert BallotOk(c, b);
      PledgersStay(c, c', b);
    }
  }

  lemma HoldersStay(c: Cluster, c': Cluster)
    requires HeldByMajority(c) && AllKeep(c, c')
    ensures forall e <- c.chosen :: |Holders(c', e)| >= Majority(Size(c))
  {
    forall e <- c.chosen
      ensures |Holders(c', e)| >= Majority(Size(c))
    {
      SubsetSize(Holders(c, e), Holders(c', e));
    }
  }

  /** A step of one server that keeps what it has; the last leader must stay on top. */
  lemma OneServerKeepsInv(c: Cluster, who: nat, s: Server)
    requires Inv(c) && who < Size(c)
    requires s.id == who && Good(s.disk, c.proposed)
    requires Keeps(c.servers[who].disk, s.disk, c.chosen)
    requires c.leader == Some(who) ==> TopOk(c, s)
    ensures Inv(c.(servers := c.servers[who := s]))
  {
    var c' := c.(servers := c.servers[who := s]);
    assert AllKeep(c, c');
    BallotsStay(c, c');
    HoldersStay(c, c');
    assert ServersOk(c');
    assert c.leader.Some? ==> TopOk(c', c'.servers[c.leader.value]);
  }

  /** A step that leaves a server's memory and file alone, and makes nobody a leader. */
  lemma QuietStepKeepsInv(c: Cluster, who: nat, s: Server)
    requires Inv(c) && who < Size(c) && s.id == c.servers[who].id
    requires s.disk.mem == c.servers[who].disk.mem && s.disk.file == c.servers[who].disk.file
    requires s.role == Leader ==> c.servers[who].role == Leader
    ensures Inv(c.(servers := c.servers[who := s]))
  {
    OneServerKeepsInv(c, who, s);
  }

  lemma TransferKeepsInv(c: Cluster, to: nat, from: nat, upTo: nat)
    requires Inv(c) && Leads(c) && to < Size(c) && to != c.leader.value
    ensures
      var missing := MissingEntries(c.servers[c.leader.value].disk.mem.log, from, upTo);
      Inv(c.(servers := c.servers[to := HandleStateTransfer(c.servers[to], missing).0]))
  {
    var missing := MissingEntries(c.servers[c.leader.value].disk.mem.log, from, upTo);
    assert forall e <- missing :: Supplied(e, c.proposed);
    InstallKeeps(c.servers[to].disk, missing, c.proposed, c.chosen);
    OneServerKeepsInv(c, to, HandleStateTransfer(c.servers[to], missing).0);
  }

  lemma RestartKeepsInv(c: Cluster, who: nat)
    requires Inv(c) && who < Size(c) && (c.leader == Some(who) ==> c.servers[who].disk.file.Some?)
    ensures Inv(c.(servers := c.servers[who := Restart(c.servers[who])]))
  {
    OneServerKeepsInv(c, who, Restart(c.servers[who]));
  }

  lemma SmallStepsKeepInv(c: Cluster, step: Step, c': Cluster)
    requires Inv(c) && Next(c, step, c') && Restartable(c, step)
    requires !step.Elect? && !step.Propose?
    ensures Inv(c')
  {
    match step {
      case Beat(to) => QuietStepKeepsInv(c, to, c'.servers[to]);
      case Transfer(to, from, upTo) => TransferKeepsInv(c, to, from, upTo);
      case LoseContact => QuietStepKeepsInv(c, c.leader.value, c'.servers[c.leader.value]);
      case Learn(who) => QuietStepKeepsInv(c, who, c'.servers[who]);
      case Crash(who) => RestartKeepsInv(c, who);
      case Disk(who, faults) => QuietStepKeepsInv(c, who, c'.servers[who]);
      case Stop(who) =>
        BallotsStay(c, c');
        HoldersStay(c, c');
    }
  }

  // ----- proposals -----

  function Acceptors(servers: seq<Server>, e: Entry, answered: seq<nat>): set<nat> {
    Listed(answered, set p: nat | p < |servers| && Accepting(servers[p], e))
  }

  lemma {:induction false} CountAccepts(servers: seq<Server>, e: Entry, answered: seq<nat>)
    requires Distinct(answered) && forall k :: 0 <= k < |answered| ==> answered[k] < |servers|
    ensures Accepts(AcceptReplies(servers, e, answered)) == |Acceptors(servers, e, answered)|
    decreases |answered|
  {
    if answered != [] {
      var rest := answered[1..];
      assert AcceptReplies(servers, e, answered)[1..] == AcceptReplies(servers, e, rest);
      assert AcceptReplies(servers, e, answered)[0].Accepted? == Accepting(servers[answered[0]], e);
      CountAccepts(servers, e, rest);
      ListedSplit(answered, set p: nat | p < |servers| && Accepting(servers[p], e));
    }
  }

  /** The members of `yes` that a list names. */
  function Listed(ids: seq<nat>, yes: set<nat>): set<nat> {
    set p | p in ids && p in yes
  }

  lemma ListedSplit(ids: seq<nat>, yes: set<nat>)
    requires Distinct(ids) && ids != []
    ensures |Listed(ids, yes)| == |Listed(ids[1..], yes)| + (if ids[0] in yes then 1 else 0)
  {
    assert ids[0] !in ids[1..];
    assert Listed(ids, yes) == Listed(ids[1..], yes) + (if ids[0] in yes then {ids[0]} else {});
  }

  lemma AcceptKeeps(s: Server, e: Entry, proposed: set<Entry>, chosen: set<Entry>)
    requires Good(s.disk, proposed) && e in proposed && e.ballot.term >= 1
    requires forall x <- chosen :: x.index != e.index
    ensures
      var (s', reply) := HandleAccept(s, e.ballot, e);
      && s'.id == s.id && Good(s'.disk, proposed) && Keeps(s.disk, s'.disk, chosen)
      && (reply.Accepted? ==> Holds(s'.disk, e))
  {
    UpdateKeeps(s.disk, e, proposed, chosen);
    var d' := Do(s.disk, Update(e.index, e)).0;
    RecordKeeps(d', e.index, e.ballot, proposed, chosen);
    KeepsBoth(s.disk, d', Do(d', Accept(e.index, e.ballot)).0, chosen);
  }

  lemma AppendKeeps(d: Durable, e: Entry, proposed: set<Entry>, chosen: set<Entry>)
    requires Good(d, proposed) && e in proposed && e.ballot.term >= 1 && e.index == |d.mem.log|
    ensures
      var d' := Do(d, Append(e)).0;
      Good(d', proposed) && Keeps(d, d', chosen)
  {
  }

  lemma NewEntryFits(c: Cluster, e: Entry)
    requires Inv(c) && Leads(c)
    requires e == NewEntry(c.servers[c.leader.value], e.op, e.key, e.value)
    ensures forall x <- c.chosen :: x.index != e.index
    ensures forall x <- c.proposed :: AtLeast(e.ballot, x.ballot) && !(x.index == e.index && x.ballot == e.ballot)
    ensures e.ballot in c.ballots && e.ballot.term >= 1 && e.ballot.server == c.leader.value
  {
    assert BallotOk(c, e.ballot);
    forall x <- c.chosen
      ensures x.index != e.index
    {
      assert HasSlot(c.servers[c.leader.value].disk.mem, x);
    }
  }

  /** The leader's memory has the entry appended, and its file was replaced by it or left. */
  ghost predicate Appended(d: Durable, d': Durable, e: Entry) {
    d'.mem == d.mem.(log := d.mem.log + [e]) && (d'.file == d.file || d'.file == Some(d'.mem))
  }

  lemma ProposePeers(c: Cluster, e: Entry, proposed: set<Entry>, reached: set<nat>, i: nat)
    requires Inv(c) && i < Size(c) && e.ballot.term >= 1 && proposed == c.proposed + {e}
    requires forall x <- c.chosen :: x.index != e.index
    ensures
      var s := AfterAccept(c.servers, e, reached)[i];
      s.id == i && Good(s.disk, proposed) && Keeps(c.servers[i].disk, s.disk, c.chosen)
  {
    assert Good(c.servers[i].disk, proposed);
    AcceptKeeps(c.servers[i], e, proposed, c.chosen);
  }

  lemma ProposeServers(c: Cluster, c': Cluster, op: Operation, key: string, value: string, reached: set<nat>,
                       answered: seq<nat>)
    requires Inv(c) && ProposeStep(c, c', op, key, value, reached, answered)
    ensures ServersOk(c') && AllKeep(c, c')
    ensures
      var l, l' := c.servers[c.leader.value], c'.servers[c.leader.value];
      Appended(l.disk, l'.disk, NewEntry(l, op, key, value))
  {
    var l := c.leader.value;
    var e := NewEntry(c.servers[l], op, key, value);
    NewEntryFits(c, e);
    var told := if BeginProposal(c.servers[l], e).1.Some? then reached else {};
    assert Good(c.servers[l].disk, c'.proposed);
    AppendKeeps(c.servers[l].disk, e, c'.proposed, c.chosen);
    forall i | 0 <= i < Size(c) && i != l
      ensures c'.servers[i].id == i && Good(c'.servers[i].disk, c'.proposed)
      ensures Keeps(c.servers[i].disk, c'.servers[i].disk, c.chosen)
    {
      ProposePeers(c, e, c'.proposed, told, i);
    }
  }

  /** What a proposal changes besides the servers. */
  ghost predicate ProposeChanges(c: Cluster, c': Cluster, e: Entry) {
    && Size(c') == Size(c) && (c.leader.Some? ==> c.leader.value < Size(c))
    && c'.leader == c.leader && c'.stopped == c.stopped && c'.ballots == c.ballots
    && c'.proposed == c.proposed + {e}
    && (c'.chosen == c.chosen || (c'.chosen == c.chosen + {e} && |Holders(c', e)| >= Majority(Size(c))
                                  && (c.leader.Some? ==> Stores(c'.servers[c.leader.value].disk, e))))
    && (c'.acked == c.acked || (c'.acked == c.acked + {e} && e in c'.chosen))
  }

  lemma AcceptorsHold(c: Cluster, c': Cluster, e: Entry, reached: set<nat>)
    requires Size(c') == Size(c) && e in c'.proposed && e.ballot.server < Size(c)
    requires forall p <- reached ::
      p < Size(c) && p != e.ballot.server && c'.servers[p] == HandleAccept(c.servers[p], e.ballot, e).0
    ensures |Holders(c', e)| >= 1 + |AcceptedBy(c.servers, e, reached)|
  {
    var a := AcceptedBy(c.servers, e, reached);
    forall p <- a
      ensures p in Holders(c', e)
    {
      assert Accepting(c.servers[p], e);
      assert Holds(c'.servers[p].disk, e);
    }
    SubsetSize(a + {e.ballot.server}, Holders(c', e));
  }

  /** Whoever is counted has accepted. */
  lemma CountedAccepted(servers: seq<Server>, e: Entry, reached: set<nat>, answered: seq<nat>)
    requires Distinct(answered)
    requires forall k :: 0 <= k < |answered| ==> answered[k] in reached && answered[k] < |servers|
    ensures Accepts(AcceptReplies(servers, e, answered)) <= |AcceptedBy(servers, e, reached)|
  {
    CountAccepts(servers, e, answered);
    SubsetSize(Acceptors(servers, e, answered), AcceptedBy(servers, e, reached));
  }

  /** An entry that its leader sends is in the leader's memory and file. */
  lemma SentIsStored(s: Server, e: Entry, replies: seq<AcceptReply>, n: nat)
    requires s.role == Leader && e.ballot == s.disk.mem.npromised && e.index == |s.disk.mem.log|
    ensures BeginProposal(s, e).1.Some? ==> Stores(Proposal(s, e, replies, n).0.disk, e)
  {
    assert e.(ballot := s.disk.mem.npromised) == e;
  }

  lemma ProposeChangesThis(c: Cluster, c': Cluster, op: Operation, key: string, value: string, reached: set<nat>,
                           answered: seq<nat>)
    requires Inv(c) && ProposeStep(c, c', op, key, value, reached, answered)
    ensures ProposeChanges(c, c', NewEntry(c.servers[c.leader.value], op, key, value))
  {
    var e := NewEntry(c.servers[c.leader.value], op, key, value);
    NewEntryFits(c, e);
    CountedAccepted(c.servers, e, reached, answered);
    SentIsStored(c.servers[c.leader.value], e, AcceptReplies(c.servers, e, answered), Size(c));
    if c'.chosen != c.chosen {
      AcceptorsHold(c, c', e, reached);
    }
  }

  lemma ProposeProposals(c: Cluster, c': Cluster, e: Entry)
    requires Inv(c) && Leads(c) && ProposeChanges(c, c', e)
    requires e == NewEntry(c.servers[c.leader.value], e.op, e.key, e.value)
    ensures ProposalsOk(c')
  {
    NewEntryFits(c, e);
  }

  lemma ProposeLeader(c: Cluster, c': Cluster, e: Entry)
    requires Inv(c) && Leads(c) && ProposeChanges(c, c', e)
    requires ServersOk(c') && AllKeep(c, c')
    requires Appended(c.servers[c.leader.value].disk, c'.servers[c.leader.value].disk, e)
    requires e == NewEntry(c.servers[c.leader.value], e.op, e.key, e.value)
    ensures LeaderOk(c')
  {
    NewEntryFits(c, e);
    var l, l' := c.servers[c.leader.value], c'.servers[c.leader.value];
    forall x <- c'.chosen
      ensures HasSlot(l'.disk.mem, x) && (x.ballot.server == l'.id ==> Stores(l'.disk, x))
    {
      if x in c.chosen {
        assert HasSlot(l.disk.mem, x);
      }
    }
    assert TopOk(c', l');
  }

  lemma ProposedKeepsInv(c: Cluster, c': Cluster, e: Entry)
    requires Inv(c) && Leads(c) && ProposeChanges(c, c', e)
    requires ServersOk(c') && AllKeep(c, c')
    requires Appended(c.servers[c.leader.value].disk, c'.servers[c.leader.value].disk, e)
    requires e == NewEntry(c.servers[c.leader.value], e.op, e.key, e.value)
    ensures Inv(c')
  {
    ProposeProposals(c, c', e);
    HoldersStay(c, c');
    BallotsStay(c, c');
    ProposeLeader(c, c', e);
  }

  lemma ProposeKeepsInv(c: Cluster, c': Cluster, op: Operation, key: string, value: string, reached: set<nat>,
                        answered: seq<nat>)
    requires Inv(c) && ProposeStep(c, c', op, key, value, reached, answered)
    ensures Inv(c')
  {
    ProposeServers(c, c', op, key, value, reached, answered);
    ProposeChangesThis(c, c', op, key, value, reached, answered);
    ProposedKeepsInv(c, c', NewEntry(c.servers[c.leader.value], op, key, value));
  }

  // ----- elections -----

  predicate Promising(s: Server, b: Ballot) {
    HandlePrepare(s, b).1.Promised?
  }

  function Voters(servers: seq<Server>, b: Ballot, answered: seq<nat>): set<nat> {
    Listed(answered, set p: nat | p < |servers| && Promising(servers[p], b))
  }

  lemma {:induction false} CountVotes(servers: seq<Server>, b: Ballot, answered: seq<nat>)
    requires Distinct(answered) && forall k :: 0 <= k < |answered| ==> answered[k] < |servers|
    ensures Votes(PrepareReplies(servers, b, answered)) == |Voters(servers, b, answered)|
    decreases |answered|
  {
    if answered != [] {
      var rest := answered[1..];
      assert PrepareReplies(servers, b, answered)[1..] == PrepareReplies(servers, b, rest);
      assert PrepareReplies(servers, b, answered)[0].Promised? == Promising(servers[answered[0]], b);
      CountVotes(servers, b, rest);
      ListedSplit(answered, set p: nat | p < |servers| && Promising(servers[p], b));
    }
  }

  lemma PrepareKeeps(s: Server, b: Ballot, proposed: set<Entry>, chosen: set<Entry>)
    requires Good(s.disk, proposed)
    ensures
      var (s', reply) := HandlePrepare(s, b);
      && s'.id == s.id && Good(s'.disk, proposed) && Keeps(s.disk, s'.disk, chosen)
      && (reply.Promised? ==> Pledged(s'.disk, b) && Above(b, s.disk.mem.npromised))
      && (reply.Promised? ==> forall e <- reply.entries :: Supplied(e, proposed))
      && (reply.Promised? ==> forall e <- chosen :: Holds(s.disk, e) ==> e in reply.entries)
  {
  }

  lemma CarriedSupplied(c: Cluster, b: Ballot, answered: seq<nat>)
    requires ServersOk(c)
    requires forall k :: 0 <= k < |answered| ==> answered[k] < |c.servers|
    ensures forall e <- Carried(PrepareReplies(c.servers, b, answered)) :: Supplied(e, c.proposed)
  {
    var replies := PrepareReplies(c.servers, b, answered);
    forall e <- Carried(replies)
      ensures Supplied(e, c.proposed)
    {
      CarriedElements(replies, e);
      var k :| 0 <= k < |replies| && replies[k].Promised? && e in replies[k].entries;
      PrepareKeeps(c.servers[answered[k]], b, c.proposed, c.chosen);
    }
  }

  lemma BeginKeeps(s: Server, proposed: set<Entry>, chosen: set<Entry>)
    requires Good(s.disk, proposed)
    ensures
      var (begun, b) := BeginElection(s);
      && begun.id == s.id && Good(begun.disk, proposed) && Keeps(s.disk, begun.disk, chosen)
      && begun.disk.mem.log == s.disk.mem.log
      && begun.disk.mem.npromised == Ballot(s.disk.mem.npromised.term + 1, s.id)
      && (b.Some? ==> Pledged(begun.disk, b.value) && begun.disk.mem.npromised == b.value)
      && (b.None? ==> begun.disk.file == s.disk.file)
  {
  }

  lemma CandidateKeeps(s: Server, replies: seq<PrepareReply>, n: nat, proposed: set<Entry>, chosen: set<Entry>)
    requires Good(s.disk, proposed) && Topped(proposed, chosen)
    requires forall e <- Carried(replies) :: Supplied(e, proposed)
    requires BeginElection(s).1.Some?
    ensures
      var s' := Election(s, replies, n).0;
      && s'.id == s.id && Good(s'.disk, proposed) && Keeps(s.disk, s'.disk, chosen)
      && Pledged(s'.disk, BeginElection(s).1.value) && s'.disk.mem.npromised == BeginElection(s).1.value
      && Merges(s.disk.mem.log, Carried(replies), s'.disk.mem.log)
  {
    var (begun, b) := BeginElection(s);
    BeginKeeps(s, proposed, chosen);
    var d := Adopt(begun.disk, Carried(replies));
    AdoptKeeps(begun.disk, Carried(replies), proposed, chosen);
    AdoptIsMerge(begun.disk, Carried(replies));
    AdoptMerges(begun.disk, Carried(replies));
    var s' := Election(s, replies, n).0;
    assert s'.disk == d && s'.id == s.id;
    assert Keeps(s.disk, d, chosen);
  }

  /** The facts of an election that got its ballot saved. */
  ghost predicate ElectRound(c: Cluster, c': Cluster, who: nat, reached: set<nat>, answered: seq<nat>, b: Ballot) {
    && Peers(c, who, reached, answered) && BeginElection(c.servers[who]).1 == Some(b)
    && var ended := Election(c.servers[who], PrepareReplies(c.servers, b, answered), Size(c)).0;
       c'.servers == Prepared(c.servers, b, reached)[who := ended]
  }

  lemma ElectPeers(c: Cluster, c': Cluster, who: nat, reached: set<nat>, answered: seq<nat>, b: Ballot)
    requires ServersOk(c) && ElectRound(c, c', who, reached, answered, b)
    ensures forall i :: 0 <= i < Size(c) && i != who ==>
      && c'.servers[i].id == i && Good(c'.servers[i].disk, c.proposed)
      && Keeps(c.servers[i].disk, c'.servers[i].disk, c.chosen)
      && (i in Voters(c.servers, b, answered) ==> Pledged(c'.servers[i].disk, b))
  {
    forall i | 0 <= i < Size(c) && i != who
      ensures c'.servers[i].id == i && Good(c'.servers[i].disk, c.proposed)
      ensures Keeps(c.servers[i].disk, c'.servers[i].disk, c.chosen)
      ensures i in Voters(c.servers, b, answered) ==> Pledged(c'.servers[i].disk, b)
    {
      PrepareKeeps(c.servers[i], b, c.proposed, c.chosen);
    }
  }

  lemma ElectServers(c: Cluster, c': Cluster, who: nat, reached: set<nat>, answered: seq<nat>, b: Ballot)
    requires ServersOk(c) && Topped(c.proposed, c.chosen)
    requires ElectRound(c, c', who, reached, answered, b) && c'.proposed == c.proposed
    ensures ServersOk(c') && AllKeep(c, c')
    ensures forall p <- Voters(c.servers, b, answered) + {who} :: Pledged(c'.servers[p].disk, b)
    ensures c'.servers[who].disk.mem.npromised == b
    ensures Merges(c.servers[who].disk.mem.log, Carried(PrepareReplies(c.servers, b, answered)),
      c'.servers[who].disk.mem.log)
  {
    CarriedSupplied(c, b, answered);
    CandidateKeeps(c.servers[who], PrepareReplies(c.servers, b, answered), Size(c), c.proposed, c.chosen);
    ElectPeers(c, c', who, reached, answered, b);
  }

  /** Its voters are running servers, a majority if it won. */
  lemma ElectVoters(c: Cluster, who: nat, reached: set<nat>, answered: seq<nat>, b: Ballot)
    requires Peers(c, who, reached, answered) && BeginElection(c.servers[who]).1 == Some(b)
    requires Election(c.servers[who], PrepareReplies(c.servers, b, answered), Size(c)).0.role == Leader
    ensures |Voters(c.servers, b, answered) + {who}| >= Majority(Size(c))
    ensures forall p <- Voters(c.servers, b, answered) + {who} :: p < Size(c) && p !in c.stopped
  {
    CountVotes(c.servers, b, answered);
  }

  /** Nobody but the last leader stands before that leader has stopped for good. */
  ghost predicate MayStand(c: Cluster, who: nat) {
    who < Size(c) && who !in c.stopped && (c.leader.None? || c.leader == Some(who))
  }

  /** A new leader's ballot is above the ballot of every leader before it. */
  lemma NewBallotAbove(c: Cluster, who: nat, answered: seq<nat>, b: Ballot, b0: Ballot)
    requires Inv(c) && MayStand(c, who) && b0 in c.ballots
    requires BeginElection(c.servers[who]).1 == Some(b)
    requires c.leader.None? ==> |Voters(c.servers, b, answered) + {who}| >= Majority(Size(c))
    ensures Above(b, b0)
  {
    assert BallotOk(c, b0);
    if c.leader.None? && b0 != Ballot(1, 0) {
      var p := Overlap(Voters(c.servers, b, answered) + {who}, Pledgers(c, b0), Size(c));
      if p != who {
        PrepareKeeps(c.servers[p], b, c.proposed, c.chosen);
      }
    }
  }

  /** Some voter holds a chosen entry of a stopped leader and reports it, or the candidate holds it. */
  lemma ChosenReachesCandidate(c: Cluster, who: nat, reached: set<nat>, answered: seq<nat>, b: Ballot, e: Entry)
    requires Inv(c) && MayStand(c, who) && e in c.chosen && e.ballot.server != who
    requires Peers(c, who, reached, answered)
    requires |Voters(c.servers, b, answered) + {who}| >= Majority(Size(c))
    requires forall p <- Voters(c.servers, b, answered) + {who} :: p < Size(c) && p !in c.stopped
    ensures Holds(c.servers[who].disk, e) || e in Carried(PrepareReplies(c.servers, b, answered))
  {
    var replies := PrepareReplies(c.servers, b, answered);
    var p := Overlap(Voters(c.servers, b, answered) + {who}, Holders(c, e), Size(c));
    assert BallotOk(c, e.ballot);
    if p != who {
      PrepareKeeps(c.servers[p], b, c.proposed, c.chosen);
      var k :| 0 <= k < |answered| && answered[k] == p;
      assert replies[k] in replies;
      CarriedElements(replies, e);
    }
  }

  /** Nothing above a chosen entry was ever proposed at its index. */
  lemma TopSlotIsChosen(c: Cluster, log: seq<Entry>, e: Entry)
    requires ProposalsOk(c) && GoodLog(log, c.proposed) && e in c.chosen
    requires e.index < |log| && AtLeast(log[e.index].ballot, e.ballot)
    ensures log[e.index] == e
  {
    assert Supplied(log[e.index], c.proposed);
  }

  /** A new leader's log has every chosen entry: its own were saved with it, and others reach it. */
  lemma NewLeaderHasChosen(c: Cluster, c': Cluster, who: nat, reached: set<nat>, answered: seq<nat>, b: Ballot,
                           e: Entry)
    requires Inv(c) && MayStand(c, who) && e in c.chosen
    requires ElectRound(c, c', who, reached, answered, b) && c'.proposed == c.proposed
    requires c'.servers[who].role == Leader
    ensures HasSlot(c'.servers[who].disk.mem, e)
  {
    ElectServers(c, c', who, reached, answered, b);
    if c.leader.None? || e.ballot.server != who {
      NotOwn(c, who, e);
      ElectVoters(c, who, reached, answered, b);
      ChosenReachesCandidate(c, who, reached, answered, b, e);
      TopSlotIsChosen(c, c'.servers[who].disk.mem.log, e);
    } else {
      assert Stores(c.servers[who].disk, e);
    }
  }

  /** When a server other than the last leader may stand, it proposed nothing that is chosen. */
  lemma NotOwn(c: Cluster, who: nat, e: Entry)
    requires Inv(c) && MayStand(c, who) && e in c.chosen
    ensures c.leader.None? ==> e.ballot.server != who
  {
    assert BallotOk(c, e.ballot);
  }

  /** A follower that was on top, has kept what it had and promised no less, is on top. */
  lemma StaysTop(c: Cluster, l: Server, l': Server)
    requires TopOk(c, l) && l'.id == l.id && l'.role != Leader && Keeps(l.disk, l'.disk, c.chosen)
    requires forall b <- c.ballots :: AtLeast(l'.disk.mem.npromised, b)
    requires l'.disk.file.Some? && l.disk.file.None? ==> forall b <- c.ballots :: Pledged(l'.disk, b)
    ensures TopOk(c, l')
  {
  }

  lemma BallotAboveAll(c: Cluster, who: nat, answered: seq<nat>, b: Ballot)
    requires Inv(c) && MayStand(c, who)
    requires BeginElection(c.servers[who]).1 == Some(b)
    requires c.leader.None? ==> |Voters(c.servers, b, answered) + {who}| >= Majority(Size(c))
    ensures forall b0 <- c.ballots :: Above(b, b0)
  {
    forall b0 <- c.ballots
      ensures Above(b, b0)
    {
      NewBallotAbove(c, who, answered, b, b0);
    }
  }

  lemma LostElectionKeepsInv(c: Cluster, c': Cluster, who: nat, reached: set<nat>, answered: seq<nat>, b: Ballot)
    requires Inv(c) && MayStand(c, who) && ElectRound(c, c', who, reached, answered, b)
    requires c' == c.(servers := c'.servers) && c'.servers[who].role != Leader
    ensures Inv(c')
  {
    ElectServers(c, c', who, reached, answered, b);
    HoldersStay(c, c');
    BallotsStay(c, c');
    if c.leader.Some? {
      BallotAboveAll(c, who, answered, b);
      StaysTop(c, c.servers[who], c'.servers[who]);
      assert TopOk(c', c'.servers[who]);
    }
  }

  lemma UnsavedElectionKeepsInv(c: Cluster, who: nat)
    requires Inv(c) && MayStand(c, who) && BeginElection(c.servers[who]).1.None?
    ensures Inv(c.(servers := c.servers[who := BeginElection(c.servers[who]).0]))
  {
    var begun := BeginElection(c.servers[who]).0;
    BeginKeeps(c.servers[who], c.proposed, c.chosen);
    if c.leader == Some(who) {
      StaysTop(c, c.servers[who], begun);
    }
    OneServerKeepsInv(c, who, begun);
  }

  lemma NewBallotOk(c: Cluster, c': Cluster, who: nat, answered: seq<nat>, b: Ballot)
    requires Size(c') == Size(c) && who < Size(c) && c'.leader == Some(who)
    requires b.server == who && b.term >= 1
    requires |Voters(c.servers, b, answered) + {who}| >= Majority(Size(c))
    requires forall p <- Voters(c.servers, b, answered) + {who} :: p < Size(c) && Pledged(c'.servers[p].disk, b)
    ensures BallotOk(c', b)
  {
    SubsetSize(Voters(c.servers, b, answered) + {who}, Pledgers(c', b));
  }

  lemma WonElectionHasChosen(c: Cluster, c': Cluster, who: nat, reached: set<nat>, answered: seq<nat>, b: Ballot)
    requires Inv(c) && MayStand(c, who) && ElectRound(c, c', who, reached, answered, b) && c'.proposed == c.proposed
    requires c'.servers[who].role == Leader
    ensures forall e <- c.chosen :: HasSlot(c'.servers[who].disk.mem, e)
    ensures forall e <- c.chosen :: e.ballot.server == who ==> Stores(c'.servers[who].disk, e)
  {
    ElectServers(c, c', who, reached, answered, b);
    forall e <- c.chosen
      ensures HasSlot(c'.servers[who].disk.mem, e)
      ensures e.ballot.server == who ==> Stores(c'.servers[who].disk, e)
    {
      NotOwn(c, who, e);
      NewLeaderHasChosen(c, c', who, reached, answered, b, e);
    }
  }

  lemma WonElectionIsTop(c: Cluster, c': Cluster, who: nat, reached: set<nat>, answered: seq<nat>, b: Ballot)
    requires Inv(c) && MayStand(c, who) && ElectRound(c, c', who, reached, answered, b)
    requires c' == c.(servers := c'.servers, leader := Some(who), ballots := c.ballots + {b})
    requires c'.servers[who].role == Leader
    ensures TopOk(c', c'.servers[who])
  {
    ElectServers(c, c', who, reached, answered, b);
    ElectVoters(c, who, reached, answered, b);
    BallotAboveAll(c, who, answered, b);
    WonElectionHasChosen(c, c', who, reached, answered, b);
    AboveAllIsTop(c', c.ballots, c'.servers[who], b);
  }

  /** A winner whose saved ballot is above every ballot before it, with every chosen entry. */
  lemma AboveAllIsTop(c: Cluster, before: set<Ballot>, l: Server, b: Ballot)
    requires c.ballots == before + {b} && (forall b0 <- before :: Above(b, b0))
    requires l.disk.mem.npromised == b && b.server == l.id && Pledged(l.disk, b)
    requires forall x <- c.proposed :: x.ballot in before
    requires forall e <- c.chosen :: HasSlot(l.disk.mem, e) && (e.ballot.server == l.id ==> Stores(l.disk, e))
    ensures TopOk(c, l)
  {
  }

  lemma WonElectionKeepsBallots(c: Cluster, c': Cluster, who: nat, reached: set<nat>, answered: seq<nat>, b: Ballot)
    requires Inv(c) && MayStand(c, who) && ElectRound(c, c', who, reached, answered, b)
    requires c' == c.(servers := c'.servers, leader := Some(who), ballots := c.ballots + {b})
    requires c'.servers[who].role == Leader
    ensures BallotsOk(c')
  {
    ElectServers(c, c', who, reached, answered, b);
    BallotsStay(c, c');
    ElectVoters(c, who, reached, answered, b);
    NewBallotOk(c, c', who, answered, b);
  }

  lemma WonElectionKeepsInv(c: Cluster, c': Cluster, who: nat, reached: set<nat>, answered: seq<nat>, b: Ballot)
    requires Inv(c) && MayStand(c, who) && ElectRound(c, c', who, reached, answered, b)
    requires c' == c.(servers := c'.servers, leader := Some(who), ballots := c.ballots + {b})
    requires c'.servers[who].role == Leader
    ensures Inv(c')
  {
    ElectServers(c, c', who, reached, answered, b);
    HoldersStay(c, c');
    WonElectionKeepsBallots(c, c', who, reached, answered, b);
    WonElectionIsTop(c, c', who, reached, answered, b);
  }

  lemma ElectKeepsInv(c: Cluster, c': Cluster, who: nat, reached: set<nat>, answered: seq<nat>)
    requires Inv(c) && ElectStep(c, c', who, reached, answered)
    ensures Inv(c')
  {
    var ballot := BeginElection(c.servers[who]).1;
    if ballot.None? {
      UnsavedElectionKeepsInv(c, who);
    } else if c'.servers[who].role == Leader {
      WonElectionKeepsInv(c, c', who, reached, answered, ballot.value);
    } else {
      LostElectionKeepsInv(c, c', who, reached, answered, ballot.value);
    }
  }

  // ----- runs -----

  lemma InitInv(c: Cluster)
    requires Init(c)
    ensures Inv(c)
  {
  }

  lemma StepKeepsInv(c: Cluster, step: Step, c': Cluster)
    requires Inv(c) && Next(c, step, c') && Restartable(c, step)
    ensures Inv(c')
  {
    match step {
      case Elect(who, reached, answered) => ElectKeepsInv(c, c', who, reached, answered);
      case Propose(op, key, value, reached, answered) => ProposeKeepsInv(c, c', op, key, value, reached, answered);
      case _ => SmallStepsKeepInv(c, step, c');
    }
  }

  lemma {:induction false} RunInv(run: seq<Cluster>, steps: seq<Step>, i: nat)
    requires IsRun(run, steps) && i < |run|
    ensures Inv(run[i])
  {
    if i == 0 {
      InitInv(run[0]);
    } else {
      RunInv(run, steps, i - 1);
      StepKeepsInv(run[i - 1], steps[i - 1], run[i]);
    }
  }

  lemma StepKeepsChosen(c: Cluster, step: Step, c': Cluster)
    requires Next(c, step, c')
    ensures c.chosen <= c'.chosen
  {
  }

  lemma {:induction false} ChosenStays(run: seq<Cluster>, steps: seq<Step>, i: nat, j: nat)
    requires IsRun(run, steps) && i <= j < |run|
    ensures run[i].chosen <= run[j].chosen
  {
    if i < j {
      ChosenStays(run, steps, i, j - 1);
      StepKeepsChosen(run[j - 1], steps[j - 1], run[j]);
    }
  }

  /** No running server but the last leader leads. */
  ghost predicate OneLeads(c: Cluster) {
    forall i :: 0 <= i < Size(c) && i !in c.stopped && c.servers[i].role == Leader ==> c.leader == Some(i)
  }

  lemma StepKeepsOneLeader(c: Cluster, step: Step, c': Cluster)
    requires OneLeads(c) && Next(c, step, c')
    ensures OneLeads(c')
  {
    forall i | 0 <= i < Size(c') && i !in c'.stopped && c'.servers[i].role == Leader
      ensures c'.leader == Some(i)
    {
      LeadersBefore(c, step, c', i);
    }
  }

  /** Only the last leader or the winner of an election can lead after a step. */
  lemma LeadersBefore(c: Cluster, step: Step, c': Cluster, i: nat)
    requires Next(c, step, c') && i < Size(c') && i !in c'.stopped && c'.servers[i].role == Leader
    ensures i < Size(c) && i !in c.stopped
    ensures c'.leader == Some(i) || (c.servers[i].role == Leader && (c.leader == Some(i) ==> c'.leader == c.leader))
  {
    match step {
      case Elect(who, reached, answered) => ElectedAlone(c, c', who, reached, answered, i);
      case _ =>
    }
  }

  lemma ElectedAlone(c: Cluster, c': Cluster, who: nat, reached: set<nat>, answered: seq<nat>, i: nat)
    requires ElectStep(c, c', who, reached, answered) && i < Size(c') && c'.servers[i].role == Leader
    ensures Size(c') == Size(c) && c'.stopped == c.stopped
    ensures c'.leader == Some(i) || (c.servers[i].role == Leader && (c.leader == Some(i) ==> c'.leader == c.leader))
  {
    var b := BeginElection(c.servers[who]).1;
    if i != who && b.Some? {
      assert c'.servers[i] == if i in reached then HandlePrepare(c.servers[i], b.value).0 else c.servers[i];
    }
  }

  lemma {:induction false} OnlyOneLeads(run: seq<Cluster>, steps: seq<Step>, i: nat)
    requires IsRun(run, steps) && i < |run|
    ensures OneLeads(run[i])
  {
    if i > 0 {
      OnlyOneLeads(run, steps, i - 1);
      StepKeepsOneLeader(run[i - 1], steps[i - 1], run[i]);
    }
  }

  // ----- main results -----

  /** In every run, an entry accepted by a majority, whether or not its leader heard of it,
      stands unchanged at its index in the log of whichever server leads then or at any later
      time and has not stopped. */
  lemma ChosenSurvives(run: seq<Cluster>, steps: seq<Step>, i: nat, j: nat, l: nat, e: Entry)
    requires IsRun(run, steps) && i <= j < |run| && e in run[i].chosen
    requires l < |run[j].servers| && l !in run[j].stopped && run[j].servers[l].role == Leader
    ensures
      var log := run[j].servers[l].disk.mem.log;
      e.index < |log| && log[e.index] == e
  {
    ChosenStays(run, steps, i, j);
    RunInv(run, steps, j);
    OnlyOneLeads(run, steps, j);
    assert HasSlot(run[j].servers[l].disk.mem, e);
  }

  /** So does an entry for which a majority of accepts was counted. */
  lemma AcknowledgedSurvives(run: seq<Cluster>, steps: seq<Step>, i: nat, j: nat, l: nat, e: Entry)
    requires IsRun(run, steps) && i <= j < |run| && e in run[i].acked
    requires l < |run[j].servers| && l !in run[j].stopped && run[j].servers[l].role == Leader
    ensures
      var log := run[j].servers[l].disk.mem.log;
      e.index < |log| && log[e.index] == e
  {
    RunInv(run, steps, i);
    ChosenSurvives(run, steps, i, j, l, e);
  }

  /** At one index only one entry is ever accepted by a majority. */
  lemma OneChosenPerIndex(run: seq<Cluster>, steps: seq<Step>, i: nat, j: nat, a: Entry, b: Entry)
    requires IsRun(run, steps) && i < |run| && j < |run|
    requires a in run[i].chosen && b in run[j].chosen && a.index == b.index
    ensures a == b
  {
    var last := |run| - 1;
    ChosenStays(run, steps, i, last);
    ChosenStays(run, steps, j, last);
    RunInv(run, steps, last);
    assert a in run[last].proposed && b in run[last].proposed;
    assert AtLeast(a.ballot, b.ballot) && AtLeast(b.ballot, a.ballot);
  }

  lemma AnswersConsistent(c: Cluster, who: nat, b: Ballot, answered: seq<nat>)
    requires Inv(c) && who < Size(c)
    requires forall k :: 0 <= k < |answered| ==> answered[k] < Size(c)
    ensures Consistent(c.servers[who].disk.mem.log, Carried(PrepareReplies(c.servers, b, answered)))
  {
    var log, entries := c.servers[who].disk.mem.log, Carried(PrepareReplies(c.servers, b, answered));
    CarriedSupplied(c, b, answered);
    forall e <- entries
      ensures e == BLANK || e.ballot.term >= 1
      ensures e.index < |log| && log[e.index].ballot == e.ballot ==> log[e.index] == e
    {
      assert e.index < |log| ==> Supplied(log[e.index], c.proposed);
    }
  }

  /** At any point of any run, a candidate that hears any peers ends its election with the same
      saved memory, role and ballot in whatever order their answers arrive. */
  lemma ElectionsIgnoreOrder(run: seq<Cluster>, steps: seq<Step>, i: nat, who: nat, b: Ballot, answered: seq<nat>,
                             answers: seq<PrepareReply>)
    requires IsRun(run, steps) && i < |run| && who < |run[i].servers|
    requires forall k :: 0 <= k < |answered| ==> answered[k] < |run[i].servers|
    requires multiset(answers) == multiset(PrepareReplies(run[i].servers, b, answered))
    ensures
      var c := run[i];
      var (s, ballot) := Election(c.servers[who], PrepareReplies(c.servers, b, answered), |c.servers|);
      var (s', ballot') := Election(c.servers[who], answers, |c.servers|);
      s.disk.mem == s'.disk.mem && s.role == s'.role && ballot == ballot'
  {
    RunInv(run, steps, i);
    AnswersConsistent(run[i], who, b, answered);
    ElectionOrderIrrelevant(run[i].servers[who], PrepareReplies(run[i].servers, b, answered), answers,
      |run[i].servers|);
  }
}
