/** Whole, non-overlapping rounds: elections, proposals, heartbeats and transfers that each run
    to their end with any subset of the peers reached and any subset of those answering, with
    failing saves and with crashes and restarts. An election is started by the last leader itself,
    once it has stepped down or restarted, or by anyone after that leader has stopped for good; a
    bootstrap leader can only be server 0, and restarts only if it has saved something. */
module Failover {
  import opened Types
  import opened Persistence
  import opened Quorums
  import opened Handlers
  import opened Merging

  /** The servers, the last leader while it has not stopped for good, the servers stopped for
      good, and what has happened: ballots that led, entries proposed, entries that a majority
      accepted (whether or not the replies came back), and entries for which a majority of
      accepts was counted. */
  datatype Cluster = Cluster(
    servers: seq<Server>,
    leader: Option<nat>,
    stopped: set<nat>,
    ballots: set<Ballot>,
    proposed: set<Entry>,
    chosen: set<Entry>,
    acked: set<Entry>)

  datatype Step =
    | Elect(who: nat, reached: set<nat>, answered: seq<nat>)
    | Propose(op: Operation, key: string, value: string, reached: set<nat>, answered: seq<nat>)
    | Beat(to: nat)
    | Transfer(to: nat, from: nat, upTo: nat)
    | LoseContact
    | Learn(who: nat)
    | Stop(who: nat)
    | Crash(who: nat)
    | Disk(who: nat, faults: seq<bool>)

  ghost predicate Distinct(ids: seq<nat>) {
    forall i, j :: 0 <= i < j < |ids| ==> ids[i] != ids[j]
  }

  /** `reached` are running peers of `who`, and `answered` lists some of them once each. */
  ghost predicate Peers(c: Cluster, who: nat, reached: set<nat>, answered: seq<nat>) {
    && who < |c.servers| && who !in c.stopped
    && (forall p <- reached :: p < |c.servers| && p != who && p !in c.stopped)
    && (forall k :: 0 <= k < |answered| ==> answered[k] in reached)
    && Distinct(answered)
  }

  /** The peers after those in `reached` handled a Prepare, and the replies of those in `answered`. */
  function Prepared(servers: seq<Server>, ballot: Ballot, reached: set<nat>): seq<Server> {
    seq(|servers|, i requires 0 <= i < |servers| =>
      if i in reached then HandlePrepare(servers[i], ballot).0 else servers[i])
  }

  function PrepareReplies(servers: seq<Server>, ballot: Ballot, answered: seq<nat>): seq<PrepareReply>
    requires forall k :: 0 <= k < |answered| ==> answered[k] < |servers|
  {
    seq(|answered|, k requires 0 <= k < |answered| => HandlePrepare(servers[answered[k]], ballot).1)
  }

  function AfterAccept(servers: seq<Server>, e: Entry, reached: set<nat>): seq<Server> {
    seq(|servers|, i requires 0 <= i < |servers| =>
      if i in reached then HandleAccept(servers[i], e.ballot, e).0 else servers[i])
  }

  function AcceptReplies(servers: seq<Server>, e: Entry, answered: seq<nat>): seq<AcceptReply>
    requires forall k :: 0 <= k < |answered| ==> answered[k] < |servers|
  {
    seq(|answered|, k requires 0 <= k < |answered| => HandleAccept(servers[answered[k]], e.ballot, e).1)
  }

  /** The cluster after an election of `who`. */
  ghost function AfterElection(c: Cluster, who: nat, reached: set<nat>, answered: seq<nat>): Cluster
    requires Peers(c, who, reached, answered)
  {
    var (begun, ballot) := BeginElection(c.servers[who]);
    if ballot.None? then c.(servers := c.servers[who := begun])
    else
      var ended := Election(c.servers[who], PrepareReplies(c.servers, ballot.value, answered), |c.servers|).0;
      var d := c.(servers := Prepared(c.servers, ballot.value, reached)[who := ended]);
      if ended.role == Leader then d.(leader := Some(who), ballots := c.ballots + {ballot.value}) else d
  }

  /** A follower stands when the last leader has stopped for good, or is that leader itself. */
  ghost predicate ElectStep(c: Cluster, c': Cluster, who: nat, reached: set<nat>, answered: seq<nat>) {
    && Peers(c, who, reached, answered) && (c.leader.None? || c.leader == Some(who))
    && c.servers[who].role == Follower
    && c' == AfterElection(c, who, reached, answered)
  }

  /** What is proposed: a Put (not of the value "reject", which is refused), a Delete, or the
      No-Op of a new leader. */
  predicate Proposable(op: Operation, key: string, value: string) {
    match op
    case Put => value != "reject"
    case Delete => value == ""
    case NoOp => key == "" && value == ""
    case _ => false
  }

  predicate Accepting(s: Server, e: Entry) {
    HandleAccept(s, e.ballot, e).1.Accepted?
  }

  /** The peers that accept the entry when it reaches them. */
  function AcceptedBy(servers: seq<Server>, e: Entry, reached: set<nat>): set<nat> {
    set p | p in reached && p < |servers| && Accepting(servers[p], e)
  }

  /** The cluster after its leader proposed an entry. */
  ghost function AfterProposal(c: Cluster, op: Operation, key: string, value: string, reached: set<nat>,
                               answered: seq<nat>): Cluster
    requires c.leader.Some? && Peers(c, c.leader.value, reached, answered)
  {
    var l, n := c.leader.value, |c.servers|;
    var e := NewEntry(c.servers[l], op, key, value);
    var (begun, sent) := BeginProposal(c.servers[l], e);
    if sent.None? then c.(servers := c.servers[l := begun], proposed := c.proposed + {e})
    else
      var (ended, won) := Proposal(c.servers[l], e, AcceptReplies(c.servers, e, answered), n);
      c.(servers := AfterAccept(c.servers, e, reached)[l := ended],
         proposed := c.proposed + {e},
         chosen := if 1 + |AcceptedBy(c.servers, e, reached)| >= Majority(n) then c.chosen + {e} else c.chosen,
         acked := if won then c.acked + {e} else c.acked)
  }

  ghost predicate ProposeStep(c: Cluster, c': Cluster, op: Operation, key: string, value: string,
                              reached: set<nat>, answered: seq<nat>) {
    && c.leader.Some? && Peers(c, c.leader.value, reached, answered) && Proposable(op, key, value)
    && c.servers[c.leader.value].role == Leader
    && c' == AfterProposal(c, op, key, value, reached, answered)
  }

  ghost predicate Leads(c: Cluster) {
    c.leader.Some? && c.leader.value < |c.servers| && c.servers[c.leader.value].role == Leader
  }

  ghost predicate Next(c: Cluster, step: Step, c': Cluster) {
    match step
    case Elect(who, reached, answered) => ElectStep(c, c', who, reached, answered)
    case Propose(op, key, value, reached, answered) => ProposeStep(c, c', op, key, value, reached, answered)
    case Beat(to) =>
      && Leads(c) && Peers(c, c.leader.value, {to}, [])
      && var l := c.servers[c.leader.value];
         c' == c.(servers := c.servers[to := HandleHeartbeat(c.servers[to], l.disk.mem.npromised, l.commitIndex).0])
    case Transfer(to, from, upTo) =>
      && Leads(c) && Peers(c, c.leader.value, {to}, [])
      && var missing := MissingEntries(c.servers[c.leader.value].disk.mem.log, from, upTo);
         c' == c.(servers := c.servers[to := HandleStateTransfer(c.servers[to], missing).0])
    case LoseContact =>
      Leads(c) && c' == c.(servers := c.servers[c.leader.value := StepDown(c.servers[c.leader.value])])
    case Learn(who) =>
      who < |c.servers| && c' == c.(servers := c.servers[who := ApplyCommitted(c.servers[who])])
    case Stop(who) =>
      c' == c.(stopped := c.stopped + {who}, leader := if c.leader == Some(who) then None else c.leader)
    case Crash(who) =>
      && who < |c.servers| && who !in c.stopped
      && c' == c.(servers := c.servers[who := Restart(c.servers[who])])
    case Disk(who, faults) =>
      && who < |c.servers|
      && c' == c.(servers := c.servers[who := c.servers[who].(disk := c.servers[who].disk.(faults := faults))])
  }

  /** A new cluster, with one server started as leader or none. */
  ghost predicate StartsWith(c: Cluster, lead: Option<nat>) {
    && (forall i :: 0 <= i < |c.servers| ==> c.servers[i] == Boot(i, None, c.servers[i].disk.faults, lead == Some(i)))
    && (lead.Some? ==> lead.value < |c.servers|)
    && c.leader == lead
    && c.ballots == (if lead.Some? then {Ballot(1, lead.value)} else {})
    && c.stopped == {} && c.proposed == {} && c.chosen == {} && c.acked == {}
  }

  /** The last leader restarts only if a save of its has succeeded. */
  ghost predicate Restartable(c: Cluster, step: Step) {
    step.Crash? && c.leader == Some(step.who) && step.who < |c.servers| ==> c.servers[step.who].disk.file.Some?
  }

  /** The runs that are proved safe start with server 0 as leader or with no leader. */
  ghost predicate Init(c: Cluster) {
    StartsWith(c, None) || StartsWith(c, Some(0))
  }

  ghost predicate IsSteps(run: seq<Cluster>, steps: seq<Step>) {
    |run| == |steps| + 1 && forall i :: 0 <= i < |steps| ==> Next(run[i], steps[i], run[i + 1])
  }

  ghost predicate IsRun(run: seq<Cluster>, steps: seq<Step>) {
    IsSteps(run, steps) && Init(run[0]) && forall i :: 0 <= i < |steps| ==> Restartable(run[i], steps[i])
  }

  // ----- what a server keeps -----

  /** Each slot is blank or holds a proposed entry of that index. */
  ghost predicate GoodLog(log: seq<Entry>, proposed: set<Entry>) {
    Placed(log) && forall i :: 0 <= i < |log| ==> Supplied(log[i], proposed)
  }

  ghost predicate Good(d: Durable, proposed: set<Entry>) {
    GoodLog(d.mem.log, proposed) && (d.file.Some? ==> GoodLog(d.file.value.log, proposed))
  }

  ghost predicate HasSlot(s: Saved, e: Entry) {
    e.index < |s.log| && s.log[e.index] == e
  }

  ghost predicate HasAccepted(s: Saved, e: Entry) {
    HasSlot(s, e) && e.index in s.accepted
  }

  /** The entry is in its slot in memory and in the file. */
  ghost predicate Stores(d: Durable, e: Entry) {
    HasSlot(d.mem, e) && d.file.Some? && HasSlot(d.file.value, e)
  }

  /** The entry is an accepted slot in memory and in the file. */
  ghost predicate Holds(d: Durable, e: Entry) {
    HasAccepted(d.mem, e) && d.file.Some? && HasAccepted(d.file.value, e)
  }

  /** Chosen entries have the highest ballot proposed at their index. */
  ghost predicate Topped(proposed: set<Entry>, chosen: set<Entry>) {
    && (forall x <- proposed :: x.ballot.term >= 1)
    && (forall e <- chosen, x <- proposed :: x.index == e.index ==> AtLeast(e.ballot, x.ballot))
    && chosen <= proposed
  }

  ghost predicate Keeps(d: Durable, d': Durable, chosen: set<Entry>) {
    && (forall e <- chosen :: Holds(d, e) ==> Holds(d', e))
    && (forall e <- chosen :: Stores(d, e) ==> Stores(d', e))
    && (forall b :: Pledged(d, b) ==> Pledged(d', b))
  }

  /** Writing a slot that holds no chosen entry keeps all chosen entries. */
  lemma UpdateKeeps(d: Durable, e: Entry, proposed: set<Entry>, chosen: set<Entry>)
    requires Good(d, proposed) && Supplied(e, proposed) && (e != BLANK ==> e.ballot.term >= 1)
    requires forall x <- chosen :: x.index == e.index ==> !HasSlot(d.mem, x)
    ensures
      var d' := Do(d, Update(e.index, e)).0;
      Good(d', proposed) && Keeps(d, d', chosen)
  {
    var d' := Do(d, Update(e.index, e)).0;
    forall x <- chosen | HasSlot(d.mem, x)
      ensures HasSlot(d'.mem, x)
    {
    }
  }

  lemma RecordKeeps(d: Durable, index: nat, ballot: Ballot, proposed: set<Entry>, chosen: set<Entry>)
    requires Good(d, proposed)
    ensures
      var d' := Do(d, Accept(index, ballot)).0;
      Good(d', proposed) && Keeps(d, d', chosen)
  {
  }

  lemma KeepsBoth(d: Durable, d': Durable, d'': Durable, chosen: set<Entry>)
    requires Keeps(d, d', chosen) && Keeps(d', d'', chosen)
    ensures Keeps(d, d'', chosen)
  {
  }

  lemma WriteKeeps(d: Durable, e: Entry, ballot: Ballot, proposed: set<Entry>, chosen: set<Entry>)
    requires Good(d, proposed) && Supplied(e, proposed) && Topped(proposed, chosen)
    requires e.index < |d.mem.log| ==> !AtLeast(d.mem.log[e.index].ballot, e.ballot)
    ensures
      var d' := Do(d, Update(e.index, e)).0;
      var d'' := Do(d', Accept(e.index, ballot)).0;
      Good(d', proposed) && Keeps(d, d', chosen) && Good(d'', proposed) && Keeps(d, d'', chosen)
  {
    forall x <- chosen | x.index == e.index
      ensures !HasSlot(d.mem, x)
    {
      assert AtLeast(x.ballot, e.ballot);
    }
    UpdateKeeps(d, e, proposed, chosen);
    var d' := Do(d, Update(e.index, e)).0;
    RecordKeeps(d', e.index, ballot, proposed, chosen);
    KeepsBoth(d, d', Do(d', Accept(e.index, ballot)).0, chosen);
  }

  lemma {:induction false} AdoptKeeps(d: Durable, entries: seq<Entry>, proposed: set<Entry>, chosen: set<Entry>)
    requires Good(d, proposed) && Topped(proposed, chosen)
    requires forall e <- entries :: Supplied(e, proposed)
    ensures Good(Adopt(d, entries), proposed) && Keeps(d, Adopt(d, entries), chosen)
    decreases |entries|
  {
    if entries != [] {
      var d' := AdoptOne(d, entries[0]);
      if d' != d {
        WriteKeeps(d, entries[0], entries[0].ballot, proposed, chosen);
      }
      AdoptKeeps(d', entries[1..], proposed, chosen);
    }
  }

  lemma {:induction false} InstallKeeps(d: Durable, entries: seq<Entry>, proposed: set<Entry>, chosen: set<Entry>)
    requires Good(d, proposed) && Topped(proposed, chosen)
    requires forall e <- entries :: Supplied(e, proposed)
    ensures Good(Install(d, entries).0, proposed) && Keeps(d, Install(d, entries).0, chosen)
    decreases |entries|
  {
    if entries != [] {
      var (d', ok) := InstallOne(d, entries[0]);
      if d' != d {
        WriteKeeps(d, entries[0], entries[0].ballot, proposed, chosen);
      }
      if ok {
        InstallKeeps(d', entries[1..], proposed, chosen);
      }
    }
  }
}
