/** The handlers of a Multi-Paxos server (acceptor, proposer and learner over one saved log)
    as functions on the server's state. The class in PaxosServer.dfy runs them in place; the
    run systems in Interleaving.dfy and Failover.dfy are built from them. */
module Handlers {
  import opened Types
  import opened Persistence
  import opened Quorums

  datatype Role = Follower | Candidate | Leader

  /** A log position, or -1 for none. */
  type Position = i: int | -1 <= i witness -1

  datatype Server = Server(
    id: nat,
    disk: Durable,
    role: Role,
    leader: int,
    commitIndex: Position,
    lastApplied: Position,
    table: Table)

  datatype PrepareReply = Promised(ballot: Ballot, entries: seq<Entry>) | Refused(promised: Ballot) | PrepareFailed

  datatype AcceptReply =
    | Accepted(index: nat, ballot: Ballot)
    | NotAccepted(index: nat, promised: Ballot)
    | AcceptFailed(index: nat)

  function Min(a: int, b: int): int { if a < b then a else b }

  function Max(a: int, b: int): int { if a < b then b else a }

  /** A starting process: it loads its file; a bootstrap leader takes ballot (1, id) unasked. */
  function Boot(id: nat, file: Option<Saved>, faults: seq<bool>, lead: bool): Server {
    var d := Durable(Loaded(file, id), file, faults);
    var s := Server(id, d, Follower, -1, -1, -1, map[]);
    if lead then s.(disk := d.(mem := d.mem.(npromised := Ballot(1, id))), role := Leader, leader := id) else s
  }

  function Restart(s: Server): Server {
    Boot(s.id, s.disk.file, s.disk.faults, false)
  }

  // ----- acceptor -----

  function HandlePrepare(s: Server, ballot: Ballot): (Server, PrepareReply) {
    if Above(ballot, s.disk.mem.npromised) then
      var (d, ok) := Do(s.disk, Promise(ballot));
      if ok then (s.(disk := d, role := Follower), Promised(ballot, Reported(d.mem)))
      else (s.(disk := d), PrepareFailed)
    else
      (s, Refused(s.disk.mem.npromised))
  }

  /** Accepting overwrites the slot whatever it held, and leaves the promise as it is. */
  function HandleAccept(s: Server, ballot: Ballot, e: Entry): (Server, AcceptReply) {
    if AtLeast(ballot, s.disk.mem.npromised) then
      var (d, ok) := Do(s.disk, Update(e.index, e));
      if !ok then (s.(disk := d), AcceptFailed(e.index))
      else
        var (d', ok') := Do(d, Accept(e.index, ballot));
        (s.(disk := d'), if ok' then Accepted(e.index, ballot) else AcceptFailed(e.index))
    else
      (s, NotAccepted(e.index, s.disk.mem.npromised))
  }

  // ----- election -----

  function BeginElection(s: Server): (Server, Option<Ballot>) {
    var ballot := Ballot(s.disk.mem.npromised.term + 1, s.id);
    var (d, ok) := Do(s.disk, Promise(ballot));
    if ok then (s.(disk := d, role := Candidate), Some(ballot)) else (s.(disk := d, role := Follower), None)
  }

  /** An entry is adopted where the log has no slot, or a slot with a lower ballot;
      the outcome of the save is ignored. */
  function AdoptOne(d: Durable, e: Entry): Durable {
    if |d.mem.log| <= e.index || Above(e.ballot, d.mem.log[e.index].ballot)
    then Do(d, Update(e.index, e)).0
    else d
  }

  function Adopt(d: Durable, entries: seq<Entry>): Durable
    decreases |entries|
  {
    if entries == [] then d else Adopt(AdoptOne(d, entries[0]), entries[1..])
  }

  lemma {:induction false} AdoptAppend(d: Durable, front: seq<Entry>, back: seq<Entry>)
    ensures Adopt(d, front + back) == Adopt(Adopt(d, front), back)
    decreases |front|
  {
    if front == [] {
      assert front + back == back;
    } else {
      assert (front + back)[1..] == front[1..] + back;
      AdoptAppend(AdoptOne(d, front[0]), front[1..], back);
    }
  }

  /** All the entries carried by the promises among the answers, in arrival order. */
  function Carried(answers: seq<PrepareReply>): seq<Entry> {
    if answers == [] then []
    else (if answers[0].Promised? then answers[0].entries else []) + Carried(answers[1..])
  }

  function Votes(answers: seq<PrepareReply>): nat {
    if answers == [] then 0
    else (if answers[0].Promised? then 1 else 0) + Votes(answers[1..])
  }

  function BecomeLeader(s: Server): Server {
    s.(role := Leader, leader := s.id)
  }

  function EndElection(s: Server, votes: nat, n: nat): Server {
    if votes >= Majority(n) then BecomeLeader(s) else s.(role := Follower)
  }

  /** A whole election: own vote, the answers that came back, and the count. */
  function Election(s: Server, answers: seq<PrepareReply>, n: nat): (Server, Option<Ballot>) {
    var (s', ballot) := BeginElection(s);
    if ballot.None? then (s', None)
    else (EndElection(s'.(disk := Adopt(s'.disk, Carried(answers))), 1 + Votes(answers), n), ballot)
  }

  // ----- replication -----

  /** The entry a request or a No-Op is put in: the next index and the promised ballot. */
  function NewEntry(s: Server, op: Operation, key: string, value: string): Entry {
    Entry(|s.disk.mem.log|, s.disk.mem.npromised, op, key, value)
  }

  /** A leader stamps the entry with its promised ballot and appends it, whatever the index
      in the entry says; it is sent out only when the save succeeded. */
  function BeginProposal(s: Server, e: Entry): (Server, Option<Entry>) {
    if s.role != Leader then (s, None)
    else
      var e' := e.(ballot := s.disk.mem.npromised);
      var (d, ok) := Do(s.disk, Append(e'));
      (s.(disk := d), if ok then Some(e') else None)
  }

  function StepDown(s: Server): Server {
    if s.role == Leader then s.(role := Follower, leader := -1) else s
  }

  function EndProposal(s: Server, index: nat, accepts: nat, n: nat): (Server, bool) {
    if accepts >= Majority(n) then (s.(commitIndex := Max(index, s.commitIndex)), true)
    else (StepDown(s), false)
  }

  function Accepts(answers: seq<AcceptReply>): nat {
    if answers == [] then 0
    else (if answers[0].Accepted? then 1 else 0) + Accepts(answers[1..])
  }

  function Proposal(s: Server, e: Entry, answers: seq<AcceptReply>, n: nat): (Server, bool) {
    var (s', sent) := BeginProposal(s, e);
    if sent.None? then (s', false) else EndProposal(s', e.index, 1 + Accepts(answers), n)
  }

  // ----- heartbeats, catch-up, learner -----

  function HandleHeartbeat(s: Server, ballot: Ballot, commitIndex: int): (Server, bool, nat) {
    if AtLeast(ballot, s.disk.mem.npromised) then
      (s.(role := Follower, leader := ballot.server, commitIndex := Max(commitIndex, s.commitIndex)),
       true, |s.disk.mem.log|)
    else (s, false, |s.disk.mem.log|)
  }

  /** The slots from `from` to `upTo` that the leader has. */
  function MissingEntries(log: seq<Entry>, from: nat, upTo: nat): seq<Entry> {
    if from < Min(upTo, |log|) then log[from..Min(upTo, |log|)] else []
  }

  /** A transferred entry goes where the slot is missing or has a lower ballot. */
  function InstallOne(d: Durable, e: Entry): (Durable, bool) {
    if e.index < |d.mem.log| && AtLeast(d.mem.log[e.index].ballot, e.ballot) then (d, true)
    else
      var (d', ok) := Do(d, Update(e.index, e));
      if ok then Do(d', Accept(e.index, e.ballot)) else (d', false)
  }

  /** The first failed save ends a transfer. */
  function Install(d: Durable, entries: seq<Entry>): (Durable, bool)
    decreases |entries|
  {
    if entries == [] then (d, true)
    else
      var (d', ok) := InstallOne(d, entries[0]);
      if ok then Install(d', entries[1..]) else (d', false)
  }

  function HandleStateTransfer(s: Server, entries: seq<Entry>): (Server, bool) {
    var (d, ok) := Install(s.disk, entries);
    (s.(disk := d), ok)
  }

  /** The committed entries that the log has and that are not applied yet. */
  function Ready(s: Server): seq<Entry> {
    MissingEntries(s.disk.mem.log, s.lastApplied + 1, s.commitIndex + 1)
  }

  /** Where `lastApplied` ends: at the commit index when the log reaches it; otherwise one
      past what the log had, because it is advanced before the entry is looked up. */
  function AppliedUpTo(s: Server): Position {
    if s.commitIndex <= s.lastApplied then s.lastApplied
    else if s.commitIndex < |s.disk.mem.log| then s.commitIndex
    else Max(s.lastApplied + 1, |s.disk.mem.log|)
  }

  function ApplyCommitted(s: Server): Server {
    s.(table := Replay(s.table, Ready(s)), lastApplied := AppliedUpTo(s))
  }

  /** One turn of the apply loop. */
  lemma ApplyOne(s: Server)
    requires s.lastApplied < s.commitIndex
    ensures
      var next := s.(lastApplied := s.lastApplied + 1);
      if s.lastApplied + 1 < |s.disk.mem.log| then
        ApplyCommitted(s) == ApplyCommitted(next.(table := Applied(s.table, s.disk.mem.log[s.lastApplied + 1])))
      else
        ApplyCommitted(s) == next
  {
    var log := s.disk.mem.log;
    if s.lastApplied + 1 < |log| {
      var lo, hi := s.lastApplied + 1, Min(s.commitIndex + 1, |log|);
      assert Ready(s) == log[lo..hi] && log[lo..hi][0] == log[lo] && log[lo..hi][1..] == log[lo + 1..hi];
      assert MissingEntries(log, lo + 1, s.commitIndex + 1) == log[lo + 1..hi];
    }
  }
}
