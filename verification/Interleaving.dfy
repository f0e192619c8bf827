/** Full interleaving: every critical section of every server is one step, messages may be
    lost, delayed and delivered again, saves may fail, and servers crash and restart as
    followers at any point. (A crash inside a handler is a handler whose remaining saves fail,
    followed by a crash.) Any servers may have been started as bootstrap leaders. */
module Interleaving {
  import opened Types
  import opened Quorums
  import opened Handlers

  datatype Message =
    | PrepareMsg(ballot: Ballot)
    | PromiseMsg(from: nat, ballot: Ballot, entries: seq<Entry>)
    | AcceptMsg(from: nat, entry: Entry)
    | AcceptedMsg(from: nat, entry: Entry)
    | HeartbeatMsg(ballot: Ballot, commitIndex: int)
    | TransferMsg(entries: seq<Entry>)

  /** What happened, in order: a Prepare went out, a server voted (for itself or by a promise),
      a server replied accepted, an election was won with these voters. */
  datatype Event =
    | Campaigned(who: nat, ballot: Ballot)
    | Granted(who: nat, ballot: Ballot)
    | RepliedAccepted(who: nat, ballot: Ballot)
    | Won(who: nat, ballot: Ballot, voters: set<nat>)

  datatype Learned = Learned(index: nat, entry: Entry)

  /** What a server's learner has done since its process started: the entries it applied, and
      whether the log reached the commit index each time there was something to apply. */
  datatype Learner = Learner(applied: seq<Learned>, reached: bool)

  /** Elections counting votes, requests that have read the log length but are not proposed yet,
      and proposals waiting for accepts are the local variables of running calls. */
  datatype System = System(
    servers: seq<Server>,
    learners: seq<Learner>,
    sent: set<Message>,
    elections: map<Ballot, set<nat>>,
    requests: set<(nat, Entry)>,
    rounds: set<(nat, Entry)>,
    proposed: set<Entry>,
    puts: set<(string, string)>,
    events: seq<Event>)

  datatype Step =
    | StartElection
    | DeliverPrepare(ballot: Ballot)
    | CollectPromise(from: nat, ballot: Ballot, entries: seq<Entry>)
    | CloseElection(ballot: Ballot)
    | Request(op: Operation, key: string, value: string)
    | Propose(entry: Entry)
    | DeliverAccept(from: nat, entry: Entry)
    | CloseRound(entry: Entry, heard: set<nat>)
    | SendHeartbeat
    | DeliverHeartbeat(ballot: Ballot, commitIndex: int)
    | LoseContact
    | SendTransfer(from: nat, upTo: nat)
    | DeliverTransfer(entries: seq<Entry>)
    | Apply
    | Crash
    | Disk(faults: seq<bool>)

  function Indexed(from: nat, entries: seq<Entry>): (r: seq<Learned>)
    ensures |r| == |entries| && forall k :: 0 <= k < |r| ==> r[k] == Learned(from + k, entries[k])
  {
    seq(|entries|, k requires 0 <= k < |entries| => Learned(from + k, entries[k]))
  }

  function Learn(l: Learner, s: Server): Learner {
    Learner(l.applied + Indexed(s.lastApplied + 1, Ready(s)),
            l.reached && (s.lastApplied < s.commitIndex ==> s.commitIndex < |s.disk.mem.log|))
  }

  /** Whether server `who` can take the step: a message must have been sent, a call must be
      running, a writer must lead. */
  predicate Enabled(y: System, who: nat, step: Step)
    requires who < |y.servers|
  {
    match step
    case DeliverPrepare(ballot) => PrepareMsg(ballot) in y.sent && who != ballot.server
    case CollectPromise(from, ballot, entries) =>
      PromiseMsg(from, ballot, entries) in y.sent && ballot in y.elections && who == ballot.server
    case CloseElection(ballot) => ballot in y.elections && who == ballot.server
    case Request(op, key, value) =>
      || (op == NoOp && key == "" && value == "")
      || (y.servers[who].role == Leader && op == Operation.Delete && value == "")
      || (y.servers[who].role == Leader && op == Operation.Put && value != "reject")
    case Propose(entry) => (who, entry) in y.requests
    case DeliverAccept(from, entry) => AcceptMsg(from, entry) in y.sent && who != from
    case CloseRound(entry, heard) => (who, entry) in y.rounds && forall p <- heard :: AcceptedMsg(p, entry) in y.sent
    case SendHeartbeat => y.servers[who].role == Leader
    case DeliverHeartbeat(ballot, commitIndex) => HeartbeatMsg(ballot, commitIndex) in y.sent
    case DeliverTransfer(entries) => TransferMsg(entries) in y.sent
    case _ => true
  }

  /** The server after its step; an election closes with the votes it has counted. */
  function Moved(s: Server, step: Step, votes: nat, n: nat): Server {
    match step
    case StartElection => BeginElection(s).0
    case DeliverPrepare(ballot) => HandlePrepare(s, ballot).0
    case CollectPromise(_, _, entries) => s.(disk := Adopt(s.disk, entries))
    case CloseElection(_) => EndElection(s, votes, n)
    case Propose(entry) => BeginProposal(s, entry).0
    case DeliverAccept(_, entry) => HandleAccept(s, entry.ballot, entry).0
    case CloseRound(entry, heard) => EndProposal(s, entry.index, 1 + |heard|, n).0
    case DeliverHeartbeat(ballot, commitIndex) => HandleHeartbeat(s, ballot, commitIndex).0
    case LoseContact => StepDown(s)
    case DeliverTransfer(entries) => HandleStateTransfer(s, entries).0
    case Apply => ApplyCommitted(s)
    case Crash => Restart(s)
    case Disk(faults) => s.(disk := s.disk.(faults := faults))
    case _ => s
  }

  function Taught(l: Learner, s: Server, step: Step): Learner {
    match step
    case Apply => Learn(l, s)
    case Crash => Learner([], true)
    case _ => l
  }

  /** The messages a step sends. */
  function Sends(s: Server, who: nat, step: Step): set<Message> {
    match step
    case StartElection =>
      var b := BeginElection(s).1;
      if b.Some? then {PrepareMsg(b.value)} else {}
    case DeliverPrepare(ballot) =>
      var reply := HandlePrepare(s, ballot).1;
      if reply.Promised? then {PromiseMsg(who, ballot, reply.entries)} else {}
    case Propose(entry) =>
      var e := BeginProposal(s, entry).1;
      if e.Some? then {AcceptMsg(who, e.value)} else {}
    case DeliverAccept(_, entry) =>
      if HandleAccept(s, entry.ballot, entry).1.Accepted? then {AcceptedMsg(who, entry)} else {}
    case SendHeartbeat => {HeartbeatMsg(s.disk.mem.npromised, s.commitIndex)}
    case SendTransfer(from, upTo) => {TransferMsg(MissingEntries(s.disk.mem.log, from, upTo))}
    case _ => {}
  }

  /** The events a step appends. */
  function Logged(y: System, who: nat, step: Step): seq<Event>
    requires who < |y.servers| && Enabled(y, who, step)
  {
    var s := y.servers[who];
    match step
    case StartElection =>
      var b := BeginElection(s).1;
      if b.Some? then [Campaigned(who, b.value), Granted(who, b.value)] else []
    case DeliverPrepare(ballot) =>
      if HandlePrepare(s, ballot).1.Promised? then [Granted(who, ballot)] else []
    case DeliverAccept(_, entry) =>
      if HandleAccept(s, entry.ballot, entry).1.Accepted? then [RepliedAccepted(who, entry.ballot)] else []
    case CloseElection(ballot) =>
      if |y.elections[ballot]| >= Majority(|y.servers|) then [Won(who, ballot, y.elections[ballot])] else []
    case _ => []
  }

  /** The votes counted in the running elections. */
  function Counted(y: System, who: nat, step: Step): map<Ballot, set<nat>>
    requires who < |y.servers| && Enabled(y, who, step)
  {
    match step
    case StartElection =>
      var b := BeginElection(y.servers[who]).1;
      if b.Some? then y.elections[b.value := {who}] else y.elections
    case CollectPromise(from, ballot, _) => y.elections[ballot := y.elections[ballot] + {from}]
    case CloseElection(ballot) => y.elections - {ballot}
    case Crash => map b | b in y.elections && b.server != who :: y.elections[b]
    case _ => y.elections
  }

  /** The running calls of `who` end when it crashes. */
  function Requests(y: System, who: nat, step: Step): set<(nat, Entry)>
    requires who < |y.servers|
  {
    match step
    case Request(op, key, value) => y.requests + {(who, NewEntry(y.servers[who], op, key, value))}
    case Propose(entry) => y.requests - {(who, entry)}
    case Crash => set r | r in y.requests && r.0 != who
    case _ => y.requests
  }

  function Rounds(y: System, who: nat, step: Step): set<(nat, Entry)>
    requires who < |y.servers|
  {
    match step
    case Propose(entry) =>
      var e := BeginProposal(y.servers[who], entry).1;
      if e.Some? then y.rounds + {(who, e.value)} else y.rounds
    case CloseRound(entry, _) => y.rounds - {(who, entry)}
    case Crash => set r | r in y.rounds && r.0 != who
    case _ => y.rounds
  }

  /** What a leader appends, whether or not it could be saved. */
  function Proposes(s: Server, step: Step): set<Entry> {
    if step.Propose? && s.role == Leader then {step.entry.(ballot := s.disk.mem.npromised)} else {}
  }

  function VotesFor(y: System, step: Step): nat {
    if step.CloseElection? && step.ballot in y.elections then |y.elections[step.ballot]| else 0
  }

  /** The system after the step. */
  function After(y: System, who: nat, step: Step): System
    requires who < |y.servers| == |y.learners| && Enabled(y, who, step)
  {
    var s := y.servers[who];
    System(y.servers[who := Moved(s, step, VotesFor(y, step), |y.servers|)],
           y.learners[who := Taught(y.learners[who], s, step)],
           y.sent + Sends(s, who, step),
           Counted(y, who, step),
           Requests(y, who, step),
           Rounds(y, who, step),
           y.proposed + Proposes(s, step),
           if step.Request? && step.op == Operation.Put then y.puts + {(step.key, step.value)} else y.puts,
           y.events + Logged(y, who, step))
  }

  predicate Next(y: System, who: nat, step: Step, y': System) {
    who < |y.servers| == |y.learners| && Enabled(y, who, step) && y' == After(y, who, step)
  }

  ghost predicate Init(y: System, lead: seq<bool>) {
    && |lead| == |y.servers| == |y.learners|
    && (forall i :: 0 <= i < |y.servers| ==> y.servers[i] == Boot(i, None, y.servers[i].disk.faults, lead[i]))
    && (forall i :: 0 <= i < |y.learners| ==> y.learners[i] == Learner([], true))
    && y.sent == {} && y.elections == map[] && y.requests == {} && y.rounds == {}
    && y.proposed == {} && y.puts == {} && y.events == []
  }

  /** A run: each system follows from the one before by one step of one server. */
  ghost predicate IsRun(run: seq<System>, moves: seq<(nat, Step)>, lead: seq<bool>) {
    && |run| == |moves| + 1
    && Init(run[0], lead)
    && forall i :: 0 <= i < |moves| ==> Next(run[i], moves[i].0, moves[i].1, run[i + 1])
  }

  lemma StepOfRun(run: seq<System>, moves: seq<(nat, Step)>, lead: seq<bool>, k: nat)
    requires IsRun(run, moves, lead) && k < |moves|
    ensures Next(run[k], moves[k].0, moves[k].1, run[k + 1])
    ensures |run[k + 1].servers| == |run[k].servers|
  {
  }

  lemma {:induction false} SameSize(run: seq<System>, moves: seq<(nat, Step)>, lead: seq<bool>, t: nat)
    requires IsRun(run, moves, lead) && t < |run|
    ensures |run[t].servers| == |lead|
  {
    if t > 0 {
      SameSize(run, moves, lead, t - 1);
      StepOfRun(run, moves, lead, t - 1);
    }
  }
}
