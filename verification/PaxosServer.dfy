/** The Multi-Paxos server as an object that its handlers update in place. Answers of peers,
    which the code gathers from concurrent calls, are parameters in order of arrival. */
module PaxosServer {
  import opened Types
  import opened Persistence
  import opened Quorums
  import opened Handlers

  class PaxosServer {
    const id: nat
    const n: nat
    const ps: PersistentState
    const kvStore: KVStore
    var role: Role
    var currentLeader: int
    var commitIndex: Position
    var lastApplied: Position

    ghost function State(): Server
      reads this, ps, kvStore
    {
      Server(id, ps.State(), role, currentLeader, commitIndex, lastApplied, kvStore.store)
    }

    constructor (id: nat, n: nat, file: Option<Saved>, faults: seq<bool>, leaderRole: bool)
      ensures State() == Boot(id, file, faults, leaderRole)
      ensures this.n == n && fresh(ps) && fresh(kvStore)
    {
      this.id, this.n := id, n;
      ps := new PersistentState(id, file, faults);
      kvStore := new KVStore();
      role, currentLeader, commitIndex, lastApplied := Follower, -1, -1, -1;
      new;
      if leaderRole {
        role, currentLeader := Leader, id;
        ps.npromised := Ballot(1, id);
      }
    }

    method HandlePrepare(ballot: Ballot) returns (reply: PrepareReply)
      modifies this, ps
      ensures (State(), reply) == Handlers.HandlePrepare(old(State()), ballot)
    {
      var npromised := ps.npromised;
      if Above(ballot, npromised) {
        var ok := ps.SetNpromised(ballot);
        if !ok {
          return PrepareFailed;
        }
        var entries := ps.GetAllAcceptedEntries();
        role := Follower;
        return Promised(ballot, entries);
      }
      return Refused(npromised);
    }

    method HandleAccept(ballot: Ballot, e: Entry) returns (reply: AcceptReply)
      modifies ps
      ensures (State(), reply) == Handlers.HandleAccept(old(State()), ballot, e)
    {
      var npromised := ps.npromised;
      if Compare(ballot, npromised) >= 0 {
        var ok := ps.UpdateLog(e.index, e);
        if !ok {
          return AcceptFailed(e.index);
        }
        ok := ps.SetHighestAcceptedBallot(e.index, ballot);
        if !ok {
          return AcceptFailed(e.index);
        }
        return Accepted(e.index, ballot);
      }
      return NotAccepted(e.index, npromised);
    }

    method AdoptAcceptedEntries(entries: seq<Entry>)
      modifies ps
      ensures State() == old(State()).(disk := Adopt(old(ps.State()), entries))
    {
      for i := 0 to |entries|
        invariant Adopt(ps.State(), entries[i..]) == Adopt(old(ps.State()), entries)
      {
        var e := entries[i];
        assert entries[i..][1..] == entries[i + 1..];
        if |ps.log| <= e.index || Above(e.ballot, ps.log[e.index].ballot) {
          var _ := ps.UpdateLog(e.index, e);
        }
      }
    }

    method StartElection(answers: seq<PrepareReply>) returns (ballot: Option<Ballot>)
      modifies this, ps
      ensures (State(), ballot) == Election(old(State()), answers, n)
    {
      role := Candidate;
      var newBallot := Ballot(ps.npromised.term + 1, id);
      var ok := ps.SetNpromised(newBallot);
      if !ok {
        role := Follower;
        return None;
      }
      ghost var begun := ps.State();
      var votes := 1;
      assert answers[0..] == answers;
      for i := 0 to |answers|
        invariant Adopt(ps.State(), Carried(answers[i..])) == Adopt(begun, Carried(answers))
        invariant votes + Votes(answers[i..]) == 1 + Votes(answers)
        invariant role == Candidate && currentLeader == old(currentLeader)
        invariant commitIndex == old(commitIndex) && lastApplied == old(lastApplied)
      {
        assert answers[i..][1..] == answers[i + 1..];
        match answers[i] {
          case Promised(_, entries) =>
            AdoptAppend(ps.State(), entries, Carried(answers[i + 1..]));
            votes := votes + 1;
            AdoptAcceptedEntries(entries);
          case _ =>
            assert Carried(answers[i..]) == Carried(answers[i + 1..]);
        }
      }
      if votes >= Majority(n) {
        role, currentLeader := Leader, id;
      } else {
        role := Follower;
      }
      return Some(newBallot);
    }

    method ProposeEntry(e: Entry, answers: seq<AcceptReply>) returns (ok: bool)
      modifies this, ps
      ensures (State(), ok) == Proposal(old(State()), e, answers, n)
    {
      if role != Leader {
        return false;
      }
      var entry := e.(ballot := ps.npromised);
      var saved := ps.AppendLog(entry);
      if !saved {
        return false;
      }
      var accepts := 1;
      for i := 0 to |answers|
        invariant accepts + Accepts(answers[i..]) == 1 + Accepts(answers)
      {
        assert answers[i..][1..] == answers[i + 1..];
        if answers[i].Accepted? {
          accepts := accepts + 1;
        }
      }
      if accepts >= Majority(n) {
        if entry.index > commitIndex {
          commitIndex := entry.index;
        }
        return true;
      }
      if role == Leader {
        role, currentLeader := Follower, -1;
      }
      return false;
    }

    /** A client write: refused by a non-leader and for the value "reject", and otherwise a
        proposal at the next index. */
    method Put(key: string, value: string, answers: seq<AcceptReply>) returns (ok: bool)
      modifies this, ps
      ensures old(role) != Leader || value == "reject" ==> !ok && State() == old(State())
      ensures old(role) == Leader && value != "reject" ==>
        (State(), ok) == Proposal(old(State()), NewEntry(old(State()), Operation.Put, key, value), answers, n)
    {
      if role != Leader || value == "reject" {
        return false;
      }
      ok := ProposeEntry(Entry(|ps.log|, ps.npromised, Operation.Put, key, value), answers);
    }

    method Delete(key: string, answers: seq<AcceptReply>) returns (ok: bool)
      modifies this, ps
      ensures old(role) != Leader ==> !ok && State() == old(State())
      ensures old(role) == Leader ==>
        (State(), ok) == Proposal(old(State()), NewEntry(old(State()), Operation.Delete, key, ""), answers, n)
    {
      if role != Leader {
        return false;
      }
      ok := ProposeEntry(Entry(|ps.log|, ps.npromised, Operation.Delete, key, ""), answers);
    }

    method ProposeNoOp(answers: seq<AcceptReply>) returns (ok: bool)
      modifies this, ps
      ensures (State(), ok) == Proposal(old(State()), NewEntry(old(State()), NoOp, "", ""), answers, n)
    {
      ok := ProposeEntry(Entry(|ps.log|, ps.npromised, NoOp, "", ""), answers);
    }

    method HandleHeartbeat(ballot: Ballot, leaderCommit: int) returns (ok: bool, length: nat)
      modifies this
      ensures (State(), ok, length) == Handlers.HandleHeartbeat(old(State()), ballot, leaderCommit)
    {
      ok := false;
      if Compare(ballot, ps.npromised) >= 0 {
        role, currentLeader := Follower, ballot.server;
        if leaderCommit > commitIndex {
          commitIndex := leaderCommit;
        }
        ok := true;
      }
      length := |ps.log|;
    }

    /** The slots a lagging peer is sent: those from its log length up to the leader's. */
    method GatherMissing(peerLength: nat, leaderLength: nat) returns (missing: seq<Entry>)
      ensures missing == MissingEntries(ps.log, peerLength, leaderLength)
    {
      missing := [];
      var i := peerLength;
      while i < leaderLength
        invariant peerLength <= i
        invariant i <= leaderLength || i == peerLength
        invariant missing == MissingEntries(ps.log, peerLength, i)
      {
        if i < |ps.log| {
          missing := missing + [ps.log[i]];
        }
        i := i + 1;
      }
    }

    method HandleStateTransfer(entries: seq<Entry>) returns (ok: bool)
      modifies ps
      ensures (State(), ok) == Handlers.HandleStateTransfer(old(State()), entries)
    {
      for i := 0 to |entries|
        invariant Install(ps.State(), entries[i..]) == Install(old(ps.State()), entries)
      {
        var e := entries[i];
        assert entries[i..][1..] == entries[i + 1..];
        if e.index < |ps.log| && Compare(ps.log[e.index].ballot, e.ballot) >= 0 {
          continue;
        }
        var saved := ps.UpdateLog(e.index, e);
        if !saved {
          return false;
        }
        saved := ps.SetHighestAcceptedBallot(e.index, e.ballot);
        if !saved {
          return false;
        }
      }
      return true;
    }

    method ApplyCommittedEntries()
      modifies this`lastApplied, kvStore
      ensures State() == ApplyCommitted(old(State()))
    {
      while lastApplied < commitIndex
        invariant ApplyCommitted(State()) == ApplyCommitted(old(State()))
        decreases commitIndex - lastApplied
      {
        ApplyOne(State());
        lastApplied := lastApplied + 1;
        if |ps.log| <= lastApplied {
          break;
        }
        var _ := kvStore.Apply(ps.log[lastApplied]);
      }
    }
  }
}
