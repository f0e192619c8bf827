/** Whole rounds are interleaved steps: every run of Failover.dfy is, server state by server
    state, reached by a run of Interleaving.dfy, so what holds of all interleaved runs holds of
    the rounds too. */
module Refinement {
  import opened Types
  import opened Handlers
  import opened Interleaving
  import Failover
  import FailoverSafety

  ghost predicate IsPath(path: seq<System>, moves: seq<(nat, Step)>) {
    |path| == |moves| + 1 && forall i :: 0 <= i < |moves| ==> Next(path[i], moves[i].0, moves[i].1, path[i + 1])
  }

  ghost predicate Reaches(y: System, z: System) {
    exists path: seq<System>, moves: seq<(nat, Step)> :: IsPath(path, moves) && path[0] == y && path[|moves|] == z
  }

  lemma ReachesSelf(y: System)
    ensures Reaches(y, y)
  {
    var moves: seq<(nat, Step)> := [];
    assert IsPath([y], moves);
  }

  lemma PathStep(path: seq<System>, moves: seq<(nat, Step)>, who: nat, step: Step, z: System)
    requires IsPath(path, moves) && Next(path[|moves|], who, step, z)
    ensures IsPath(path + [z], moves + [(who, step)])
  {
    var path', moves' := path + [z], moves + [(who, step)];
    forall i | 0 <= i < |moves'|
      ensures Next(path'[i], moves'[i].0, moves'[i].1, path'[i + 1])
    {
      if i < |moves| {
        assert Next(path[i], moves[i].0, moves[i].1, path[i + 1]);
      }
    }
  }

  lemma ReachesStep(x: System, y: System, who: nat, step: Step, z: System)
    requires Reaches(x, y) && Next(y, who, step, z)
    ensures Reaches(x, z)
  {
    var path: seq<System>, moves: seq<(nat, Step)> :| IsPath(path, moves) && path[0] == x && path[|moves|] == y;
    PathStep(path, moves, who, step, z);
    assert (path + [z])[0] == x && (path + [z])[|moves| + 1] == z;
  }

  /** The systems agree but for servers, messages and events. */
  ghost predicate SameCalls(y: System, z: System) {
    && |z.servers| == |y.servers| && z.learners == y.learners && y.sent <= z.sent
    && z.elections == y.elections && z.requests == y.requests && z.rounds == y.rounds
  }

  // ----- deliveries to several peers -----

  /** If the server accepts, its reply is among the messages, whoever sent the Accept. */
  ghost predicate AcceptSent(s: Server, p: nat, e: Entry, sent: set<Message>) {
    Sends(s, p, DeliverAccept(e.ballot.server, e)) <= sent
  }

  lemma DeliverAcceptOnce(y: System, from: nat, p: nat, e: Entry) returns (z: System)
    requires |y.servers| == |y.learners| && AcceptMsg(from, e) in y.sent && p < |y.servers| && p != from
    ensures Next(y, p, DeliverAccept(from, e), z) && SameCalls(y, z)
    ensures z.servers == y.servers[p := HandleAccept(y.servers[p], e.ballot, e).0]
    ensures AcceptSent(y.servers[p], p, e, z.sent)
  {
    z := After(y, p, DeliverAccept(from, e));
  }

  /** One peer after another: the first and then the rest is all of them. */
  lemma AcceptFirst(servers: seq<Server>, p: nat, e: Entry, todo: set<nat>)
    requires p in todo && p < |servers|
    ensures Failover.AfterAccept(servers[p := HandleAccept(servers[p], e.ballot, e).0], e, todo - {p})
         == Failover.AfterAccept(servers, e, todo)
  {
  }

  lemma {:induction false} DeliverAccepts(x: System, y: System, from: nat, e: Entry, todo: set<nat>) returns (z: System)
    requires Reaches(x, y) && |y.servers| == |y.learners| && AcceptMsg(from, e) in y.sent
    requires forall p <- todo :: p < |y.servers| && p != from
    ensures Reaches(x, z) && SameCalls(y, z)
    ensures z.servers == Failover.AfterAccept(y.servers, e, todo)
    ensures forall p <- todo :: AcceptSent(y.servers[p], p, e, z.sent)
    decreases |todo|
  {
    if todo == {} {
      z := y;
      assert Failover.AfterAccept(y.servers, e, todo) == y.servers;
    } else {
      var p :| p in todo;
      var y1 := DeliverAcceptOnce(y, from, p, e);
      ReachesStep(x, y, p, DeliverAccept(from, e), y1);
      z := DeliverAccepts(x, y1, from, e, todo - {p});
      AcceptFirst(y.servers, p, e, todo);
      forall q <- todo
        ensures AcceptSent(y.servers[q], q, e, z.sent)
      {
        assert q != p ==> y1.servers[q] == y.servers[q];
      }
    }
  }

  /** If the server votes for the ballot, its promise is among the messages. */
  ghost predicate PromiseSent(s: Server, p: nat, b: Ballot, sent: set<Message>) {
    Sends(s, p, DeliverPrepare(b)) <= sent
  }

  lemma DeliverPrepareOnce(y: System, p: nat, b: Ballot) returns (z: System)
    requires |y.servers| == |y.learners| && PrepareMsg(b) in y.sent && p < |y.servers| && p != b.server
    ensures Next(y, p, DeliverPrepare(b), z) && SameCalls(y, z)
    ensures z.servers == y.servers[p := HandlePrepare(y.servers[p], b).0]
    ensures PromiseSent(y.servers[p], p, b, z.sent)
  {
    z := After(y, p, DeliverPrepare(b));
  }

  lemma PrepareFirst(servers: seq<Server>, p: nat, b: Ballot, todo: set<nat>)
    requires p in todo && p < |servers|
    ensures Failover.Prepared(servers[p := HandlePrepare(servers[p], b).0], b, todo - {p}) ==
      Failover.Prepared(servers, b, todo)
  {
  }

  /** What the first peer and then the others have sent is what all have sent. */
  lemma PromisesKeep(y: System, y1: System, z: System, p: nat, b: Ballot, todo: set<nat>)
    requires p < |y.servers| && (forall q <- todo :: q < |y.servers|)
    requires y1.servers == y.servers[p := HandlePrepare(y.servers[p], b).0] && y1.sent <= z.sent
    requires PromiseSent(y.servers[p], p, b, y1.sent)
    requires forall q <- todo - {p} :: PromiseSent(y1.servers[q], q, b, z.sent)
    ensures forall q <- todo :: PromiseSent(y.servers[q], q, b, z.sent)
  {
    forall q <- todo
      ensures PromiseSent(y.servers[q], q, b, z.sent)
    {
      if q != p {
        assert q in todo - {p} && y1.servers[q] == y.servers[q];
      }
    }
  }

  lemma {:induction false} DeliverPrepares(x: System, y: System, b: Ballot, todo: set<nat>) returns (z: System)
    requires Reaches(x, y) && |y.servers| == |y.learners| && PrepareMsg(b) in y.sent
    requires forall p <- todo :: p < |y.servers| && p != b.server
    ensures Reaches(x, z) && SameCalls(y, z)
    ensures z.servers == Failover.Prepared(y.servers, b, todo)
    ensures forall p <- todo :: PromiseSent(y.servers[p], p, b, z.sent)
    decreases |todo|
  {
    if todo == {} {
      z := y;
      assert Failover.Prepared(y.servers, b, todo) == y.servers;
    } else {
      var p :| p in todo;
      var y1 := DeliverPrepareOnce(y, p, b);
      ReachesStep(x, y, p, DeliverPrepare(b), y1);
      z := DeliverPrepares(x, y1, b, todo - {p});
      PrepareFirst(y.servers, p, b, todo);
      PromisesKeep(y, y1, z, p, b, todo);
    }
  }

  /** The peers among `answered` whose reply is a promise. */
  function Promisers(answered: seq<nat>, replies: seq<PrepareReply>): set<nat>
    requires |answered| == |replies|
  {
    set k | 0 <= k < |answered| && replies[k].Promised? :: answered[k]
  }

  /** Collecting the promises in order adopts what they carry and counts the promisers. */
  lemma {:induction false} CollectPromises(x: System, y: System, b: Ballot, answered: seq<nat>,
                                           replies: seq<PrepareReply>)
      returns (z: System)
    requires Reaches(x, y) && |y.servers| == |y.learners| && b.server < |y.servers|
    requires |answered| == |replies| && b in y.elections
    requires forall k :: 0 <= k < |answered| && replies[k].Promised? ==>
      PromiseMsg(answered[k], b, replies[k].entries) in y.sent
    ensures Reaches(x, z) && |z.learners| == |y.learners|
    ensures
      var s := y.servers[b.server];
      z.servers == y.servers[b.server := s.(disk := Adopt(s.disk, Carried(replies)))]
    ensures b in z.elections && z.elections[b] == y.elections[b] + Promisers(answered, replies)
    decreases |answered|
  {
    if answered == [] {
      z := y;
    } else {
      var s := y.servers[b.server];
      var rest, rest' := answered[1..], replies[1..];
      assert forall k :: 0 <= k < |rest| ==> rest[k] == answered[k + 1] && rest'[k] == replies[k + 1];
      PromisersSplit(answered, replies);
      if replies[0].Promised? {
        var step := CollectPromise(answered[0], b, replies[0].entries);
        var y1 := After(y, b.server, step);
        ReachesStep(x, y, b.server, step, y1);
        AdoptAppend(s.disk, replies[0].entries, Carried(rest'));
        z := CollectPromises(x, y1, b, rest, rest');
      } else {
        assert Carried(replies) == Carried(rest');
        z := CollectPromises(x, y, b, rest, rest');
      }
    }
  }

  lemma PromisersSplit(answered: seq<nat>, replies: seq<PrepareReply>)
    requires |answered| == |replies| && answered != []
    ensures Promisers(answered, replies) ==
      Promisers(answered[1..], replies[1..]) + (if replies[0].Promised? then {answered[0]} else {})
  {
    var rest, rest' := answered[1..], replies[1..];
    forall p
      ensures p in Promisers(answered, replies) <==>
              p in Promisers(rest, rest') || (replies[0].Promised? && p == answered[0])
    {
      if k :| 0 <= k < |answered| && replies[k].Promised? && answered[k] == p {
        if k > 0 {
          assert rest[k - 1] == p && rest'[k - 1].Promised?;
        }
      }
      if k :| 0 <= k < |rest| && rest'[k].Promised? && rest[k] == p {
        assert replies[k + 1].Promised? && answered[k + 1] == p;
      }
    }
  }

  // ----- whole rounds -----

  lemma OpenElection(y: System, who: nat) returns (z: System)
    requires |y.learners| == |y.servers| && who < |y.servers|
    ensures Next(y, who, StartElection, z) && z.learners == y.learners
    ensures
      var (begun, b) := BeginElection(y.servers[who]);
      && z.servers == y.servers[who := begun]
      && (b.Some? ==> PrepareMsg(b.value) in z.sent && b.value in z.elections && z.elections[b.value] == {who})
  {
    z := After(y, who, StartElection);
  }

  lemma ShutElection(y: System, b: Ballot) returns (z: System)
    requires |y.learners| == |y.servers| && b.server < |y.servers| && b in y.elections
    ensures Next(y, b.server, CloseElection(b), z) && z.learners == y.learners
    ensures z.servers == y.servers[b.server := EndElection(y.servers[b.server], |y.elections[b]|, |y.servers|)]
  {
    z := After(y, b.server, CloseElection(b));
  }

  /** The peers' part of an election does not touch the candidate, nor the candidate's the peers. */
  lemma PreparedAround(servers: seq<Server>, who: nat, begun: Server, ended: Server, b: Ballot, reached: set<nat>)
    requires who < |servers| && who !in reached
    ensures Failover.Prepared(servers[who := begun], b, reached)[who] == begun
    ensures Failover.Prepared(servers[who := begun], b, reached)[who := ended] ==
      Failover.Prepared(servers, b, reached)[who := ended]
  {
    assert forall i :: 0 <= i < |servers| && i != who ==>
      Failover.Prepared(servers[who := begun], b, reached)[i] == Failover.Prepared(servers, b, reached)[i];
  }

  /** From the opened election: the deliveries and the collected promises. */
  lemma GatherPromises(c: Failover.Cluster, who: nat, reached: set<nat>, answered: seq<nat>, b: Ballot, begun: Server,
                       x: System, y1: System)
      returns (z: System)
    requires Failover.Peers(c, who, reached, answered) && b.server == who
    requires Reaches(x, y1) && |y1.learners| == |y1.servers| && y1.servers == c.servers[who := begun]
    requires PrepareMsg(b) in y1.sent && b in y1.elections && y1.elections[b] == {who}
    ensures Reaches(x, z) && |z.learners| == |z.servers|
    ensures
      var replies := Failover.PrepareReplies(c.servers, b, answered);
      && z.servers ==
        Failover.Prepared(c.servers, b, reached)[who := begun.(disk := Adopt(begun.disk, Carried(replies)))]
      && b in z.elections && z.elections[b] == {who} + Promisers(answered, replies)
  {
    var replies := Failover.PrepareReplies(c.servers, b, answered);
    var y2 := DeliverPrepares(x, y1, b, reached);
    PromisesReached(c, y1, y2, who, reached, answered, b);
    z := CollectPromises(x, y2, b, answered, replies);
    PreparedAround(c.servers, who, begun, begun.(disk := Adopt(begun.disk, Carried(replies))), b, reached);
  }

  lemma SetTwice(servers: seq<Server>, who: nat, first: Server, second: Server)
    requires who < |servers|
    ensures servers[who := first][who] == first && servers[who := first][who := second] == servers[who := second]
  {
  }

  lemma RunElection(c: Failover.Cluster, who: nat, reached: set<nat>, answered: seq<nat>, b: Ballot, begun: Server,
                    x: System, y1: System)
      returns (z: System)
    requires Failover.Peers(c, who, reached, answered) && b.server == who
    requires Reaches(x, y1) && |y1.learners| == |y1.servers| && y1.servers == c.servers[who := begun]
    requires PrepareMsg(b) in y1.sent && b in y1.elections && y1.elections[b] == {who}
    ensures Reaches(x, z) && |z.learners| == |z.servers|
    ensures
      var replies := Failover.PrepareReplies(c.servers, b, answered);
      var ended := EndElection(begun.(disk := Adopt(begun.disk, Carried(replies))), 1 + Votes(replies), |c.servers|);
      z.servers == Failover.Prepared(c.servers, b, reached)[who := ended]
  {
    var y3 := GatherPromises(c, who, reached, answered, b, begun, x, y1);
    VotersCounted(c, who, reached, answered, b);
    z := ShutElection(y3, b);
    SetTwice(Failover.Prepared(c.servers, b, reached), who, y3.servers[who], z.servers[who]);
    ReachesStep(x, y3, who, CloseElection(b), z);
  }

  /** The servers after a whole election. */
  lemma ElectedServers(c: Failover.Cluster, c': Failover.Cluster, who: nat, reached: set<nat>, answered: seq<nat>)
    requires Failover.ElectStep(c, c', who, reached, answered)
    ensures
      var (begun, b) := BeginElection(c.servers[who]);
      if b.None? then c'.servers == c.servers[who := begun]
      else
        var replies := Failover.PrepareReplies(c.servers, b.value, answered);
        var ended := EndElection(begun.(disk := Adopt(begun.disk, Carried(replies))), 1 + Votes(replies), |c.servers|);
        c'.servers == Failover.Prepared(c.servers, b.value, reached)[who := ended]
  {
  }

  lemma ElectIsPath(c: Failover.Cluster, c': Failover.Cluster, who: nat, reached: set<nat>, answered: seq<nat>,
                    x: System, y: System) returns (z: System)
    requires Failover.ElectStep(c, c', who, reached, answered) && c.servers[who].id == who
    requires Reaches(x, y) && y.servers == c.servers && |y.learners| == |y.servers|
    ensures Reaches(x, z) && z.servers == c'.servers && |z.learners| == |z.servers|
  {
    ElectedServers(c, c', who, reached, answered);
    z := ElectionIsPath(c, who, reached, answered, x, y);
  }

  lemma ElectionIsPath(c: Failover.Cluster, who: nat, reached: set<nat>, answered: seq<nat>, x: System, y: System)
      returns (z: System)
    requires Failover.Peers(c, who, reached, answered) && c.servers[who].id == who
    requires Reaches(x, y) && y.servers == c.servers && |y.learners| == |y.servers|
    ensures Reaches(x, z) && |z.learners| == |z.servers|
    ensures
      var (begun, b) := BeginElection(c.servers[who]);
      if b.None? then z.servers == c.servers[who := begun]
      else
        var replies := Failover.PrepareReplies(c.servers, b.value, answered);
        var ended := EndElection(begun.(disk := Adopt(begun.disk, Carried(replies))), 1 + Votes(replies), |c.servers|);
        z.servers == Failover.Prepared(c.servers, b.value, reached)[who := ended]
  {
    var (begun, b) := BeginElection(c.servers[who]);
    var y1 := OpenElection(y, who);
    ReachesStep(x, y, who, StartElection, y1);
    z := y1;
    if b.Some? {
      z := RunElection(c, who, reached, answered, b.value, begun, x, y1);
    }
  }

  lemma PromisesReached(c: Failover.Cluster, y1: System, y2: System, who: nat, reached: set<nat>, answered: seq<nat>,
                        b: Ballot)
    requires Failover.Peers(c, who, reached, answered) && |y1.servers| == |c.servers|
    requires forall p <- reached :: y1.servers[p] == c.servers[p]
    requires forall p <- reached :: PromiseSent(y1.servers[p], p, b, y2.sent)
    ensures
      var replies := Failover.PrepareReplies(c.servers, b, answered);
      forall k :: 0 <= k < |answered| && replies[k].Promised? ==>
        PromiseMsg(answered[k], b, replies[k].entries) in y2.sent
  {
    forall k | 0 <= k < |answered|
      ensures PromiseSent(c.servers[answered[k]], answered[k], b, y2.sent)
    {
      assert answered[k] in reached;
    }
  }

  lemma VotersCounted(c: Failover.Cluster, who: nat, reached: set<nat>, answered: seq<nat>, b: Ballot)
    requires Failover.Peers(c, who, reached, answered)
    ensures
      var replies := Failover.PrepareReplies(c.servers, b, answered);
      |{who} + Promisers(answered, replies)| == 1 + Votes(replies)
  {
    var replies := Failover.PrepareReplies(c.servers, b, answered);
    FailoverSafety.CountVotes(c.servers, b, answered);
    var voters := FailoverSafety.Voters(c.servers, b, answered);
    forall p
      ensures p in Promisers(answered, replies) <==> p in voters
    {
      if p in voters {
        var k :| 0 <= k < |answered| && answered[k] == p;
        assert replies[k].Promised?;
      }
    }
    assert Promisers(answered, replies) == voters && who !in voters;
  }

  /** Reading the log length and appending, as two steps with nothing between. */
  lemma OpenProposal(x: System, y: System, l: nat, op: Operation, key: string, value: string) returns (z: System)
    requires Reaches(x, y) && |y.learners| == |y.servers| && l < |y.servers|
    requires y.servers[l].role == Leader && Failover.Proposable(op, key, value)
    ensures Reaches(x, z) && z.learners == y.learners
    ensures
      var e := NewEntry(y.servers[l], op, key, value);
      var (begun, sent) := BeginProposal(y.servers[l], e);
      && z.servers == y.servers[l := begun]
      && (sent.Some? ==> sent.value == e && AcceptMsg(l, e) in z.sent && (l, e) in z.rounds)
  {
    var e := NewEntry(y.servers[l], op, key, value);
    var y1 := After(y, l, Request(op, key, value));
    ReachesStep(x, y, l, Request(op, key, value), y1);
    z := After(y1, l, Propose(e));
    ReachesStep(x, y1, l, Propose(e), z);
    assert e.(ballot := y.servers[l].disk.mem.npromised) == e;
  }

  lemma ShutRound(y: System, l: nat, e: Entry, heard: set<nat>) returns (z: System)
    requires |y.learners| == |y.servers| && l < |y.servers| && (l, e) in y.rounds
    requires forall p <- heard :: AcceptedMsg(p, e) in y.sent
    ensures Next(y, l, CloseRound(e, heard), z) && z.learners == y.learners
    ensures z.servers == y.servers[l := EndProposal(y.servers[l], e.index, 1 + |heard|, |y.servers|).0]
  {
    z := After(y, l, CloseRound(e, heard));
  }

  lemma AcceptedAround(servers: seq<Server>, l: nat, begun: Server, ended: Server, e: Entry, reached: set<nat>)
    requires l < |servers| && l !in reached
    ensures Failover.AfterAccept(servers[l := begun], e, reached)[l] == begun
    ensures Failover.AfterAccept(servers[l := begun], e, reached)[l := ended] ==
      Failover.AfterAccept(servers, e, reached)[l := ended]
  {
    assert forall i :: 0 <= i < |servers| && i != l ==>
      Failover.AfterAccept(servers[l := begun], e, reached)[i] == Failover.AfterAccept(servers, e, reached)[i];
  }

  lemma RunProposal(c: Failover.Cluster, l: nat, e: Entry, reached: set<nat>, answered: seq<nat>, begun: Server,
                    x: System, y1: System)
      returns (z: System)
    requires Failover.Peers(c, l, reached, answered)
    requires Reaches(x, y1) && |y1.learners| == |y1.servers| && y1.servers == c.servers[l := begun]
    requires AcceptMsg(l, e) in y1.sent && (l, e) in y1.rounds
    ensures Reaches(x, z) && |z.learners| == |z.servers|
    ensures
      var replies := Failover.AcceptReplies(c.servers, e, answered);
      var ended := EndProposal(begun, e.index, 1 + Accepts(replies), |c.servers|).0;
      z.servers == Failover.AfterAccept(c.servers, e, reached)[l := ended]
  {
    var y2 := DeliverAccepts(x, y1, l, e, reached);
    var heard := FailoverSafety.Acceptors(c.servers, e, answered);
    FailoverSafety.CountAccepts(c.servers, e, answered);
    forall p <- heard
      ensures AcceptedMsg(p, e) in y2.sent
    {
      assert Failover.Accepting(c.servers[p], e) && y1.servers[p] == c.servers[p];
    }
    z := ShutRound(y2, l, e, heard);
    ReachesStep(x, y2, l, CloseRound(e, heard), z);
    AcceptedAround(c.servers, l, begun, z.servers[l], e, reached);
  }

  lemma ProposeIsPath(c: Failover.Cluster, c': Failover.Cluster, op: Operation, key: string, value: string,
                      reached: set<nat>, answered: seq<nat>, x: System, y: System) returns (z: System)
    requires Failover.ProposeStep(c, c', op, key, value, reached, answered)
    requires Reaches(x, y) && y.servers == c.servers && |y.learners| == |y.servers|
    ensures Reaches(x, z) && z.servers == c'.servers && |z.learners| == |z.servers|
  {
    var l := c.leader.value;
    var e := NewEntry(c.servers[l], op, key, value);
    var y1 := OpenProposal(x, y, l, op, key, value);
    var (begun, sent) := BeginProposal(c.servers[l], e);
    z := y1;
    if sent.Some? {
      z := RunProposal(c, l, e, reached, answered, begun, x, y1);
    }
  }

  /** A single step, by what it does to the server. */
  lemma SingleStep(x: System, y: System, who: nat, step: Step, s': Server) returns (z: System)
    requires Reaches(x, y) && |y.learners| == |y.servers| && who < |y.servers|
    requires step.LoseContact? || step.Apply? || step.Crash? || step.Disk?
    requires s' == Moved(y.servers[who], step, 0, |y.servers|)
    ensures Reaches(x, z) && z.servers == y.servers[who := s'] && |z.learners| == |z.servers|
  {
    z := After(y, who, step);
    ReachesStep(x, y, who, step, z);
  }

  lemma BeatIsPath(x: System, y: System, l: nat, to: nat) returns (z: System)
    requires Reaches(x, y) && |y.learners| == |y.servers| && l < |y.servers| && to < |y.servers|
    requires y.servers[l].role == Leader
    ensures Reaches(x, z) && |z.learners| == |z.servers|
    ensures z.servers ==
      y.servers[to := HandleHeartbeat(y.servers[to], y.servers[l].disk.mem.npromised, y.servers[l].commitIndex).0]
  {
    var deliver := DeliverHeartbeat(y.servers[l].disk.mem.npromised, y.servers[l].commitIndex);
    var y1 := After(y, l, SendHeartbeat);
    ReachesStep(x, y, l, SendHeartbeat, y1);
    assert y1.servers == y.servers;
    z := After(y1, to, deliver);
    ReachesStep(x, y1, to, deliver, z);
  }

  lemma TransferIsPath(x: System, y: System, l: nat, to: nat, from: nat, upTo: nat) returns (z: System)
    requires Reaches(x, y) && |y.learners| == |y.servers| && l < |y.servers| && to < |y.servers|
    ensures Reaches(x, z) && |z.learners| == |z.servers|
    ensures z.servers ==
      y.servers[to := HandleStateTransfer(y.servers[to], MissingEntries(y.servers[l].disk.mem.log, from, upTo)).0]
  {
    var deliver := DeliverTransfer(MissingEntries(y.servers[l].disk.mem.log, from, upTo));
    var y1 := After(y, l, SendTransfer(from, upTo));
    ReachesStep(x, y, l, SendTransfer(from, upTo), y1);
    assert y1.servers == y.servers;
    z := After(y1, to, deliver);
    ReachesStep(x, y1, to, deliver, z);
  }

  lemma SmallStepIsPath(c: Failover.Cluster, step: Failover.Step, c': Failover.Cluster, x: System, y: System)
      returns (z: System)
    requires Failover.Next(c, step, c') && !step.Elect? && !step.Propose?
    requires Reaches(x, y) && y.servers == c.servers && |y.learners| == |y.servers|
    requires c.leader.Some? ==> c.leader.value < |c.servers|
    ensures Reaches(x, z) && z.servers == c'.servers && |z.learners| == |z.servers|
  {
    match step {
      case Beat(to) => z := BeatIsPath(x, y, c.leader.value, to);
      case Transfer(to, from, upTo) => z := TransferIsPath(x, y, c.leader.value, to, from, upTo);
      case LoseContact => z := SingleStep(x, y, c.leader.value, Step.LoseContact, StepDown(c.servers[c.leader.value]));
      case Learn(who) => z := SingleStep(x, y, who, Apply, ApplyCommitted(c.servers[who]));
      case Stop(who) => z := y;
      case Crash(who) => z := SingleStep(x, y, who, Step.Crash, Restart(c.servers[who]));
      case Disk(who, faults) => z := SingleStep(x, y, who, Step.Disk(faults), c'.servers[who]);
    }
  }

  lemma RoundIsPath(c: Failover.Cluster, step: Failover.Step, c': Failover.Cluster, x: System, y: System)
      returns (z: System)
    requires FailoverSafety.Inv(c) && Failover.Next(c, step, c')
    requires Reaches(x, y) && y.servers == c.servers && |y.learners| == |y.servers|
    ensures Reaches(x, z) && z.servers == c'.servers && |z.learners| == |z.servers|
  {
    match step {
      case Elect(who, reached, answered) =>
        z := ElectIsPath(c, c', who, reached, answered, x, y);
      case Propose(op, key, value, reached, answered) =>
        z := ProposeIsPath(c, c', op, key, value, reached, answered, x, y);
      case _ =>
        z := SmallStepIsPath(c, step, c', x, y);
    }
  }

  lemma RunStepIsPath(run: seq<Failover.Cluster>, steps: seq<Failover.Step>, i: nat, x: System, y: System)
      returns (z: System)
    requires Failover.IsSteps(run, steps) && i < |steps| && FailoverSafety.Inv(run[i])
    requires Reaches(x, y) && y.servers == run[i].servers && |y.learners| == |y.servers|
    ensures Reaches(x, z) && z.servers == run[i + 1].servers && |z.learners| == |z.servers|
  {
    z := RoundIsPath(run[i], steps[i], run[i + 1], x, y);
  }

  lemma {:induction false} RoundsArePath(run: seq<Failover.Cluster>, steps: seq<Failover.Step>, i: nat, x: System)
      returns (z: System)
    requires Failover.IsRun(run, steps) && i < |run|
    requires x.servers == run[0].servers && |x.learners| == |x.servers|
    ensures Reaches(x, z) && z.servers == run[i].servers && |z.learners| == |z.servers|
  {
    if i == 0 {
      ReachesSelf(x);
      z := x;
    } else {
      var y := RoundsArePath(run, steps, i - 1, x);
      FailoverSafety.RunInv(run, steps, i - 1);
      z := RunStepIsPath(run, steps, i - 1, x, y);
    }
  }

  /** The interleaved system that starts with the servers of a new cluster. */
  lemma SameStart(c: Failover.Cluster) returns (x: System, lead: seq<bool>)
    requires Failover.Init(c)
    ensures Init(x, lead) && x.servers == c.servers
  {
    var n := |c.servers|;
    lead := seq(n, i requires 0 <= i < n => c.servers[i].role == Leader);
    x := System(c.servers, seq(n, i => Learner([], true)), {}, map[], {}, {}, {}, {}, []);
  }

  /** Every state of a run of whole rounds has the servers of the last system of an interleaved
      run that starts with the same servers. */
  lemma RoundsAreInterleaved(run: seq<Failover.Cluster>, steps: seq<Failover.Step>, i: nat)
      returns (path: seq<System>, moves: seq<(nat, Step)>, lead: seq<bool>)
    requires Failover.IsRun(run, steps) && i < |run|
    ensures IsRun(path, moves, lead) && path[0].servers == run[0].servers
    ensures path[|moves|].servers == run[i].servers
  {
    var x;
    x, lead := SameStart(run[0]);
    var z := RoundsArePath(run, steps, i, x);
    path, moves :| IsPath(path, moves) && path[0] == x && path[|moves|] == z;
  }
}
