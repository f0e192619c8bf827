/** Who leads, whom a server takes for the leader, and how far it knows of commits, in the runs of
    Interleaving.dfy: told by the moves and events of the run. */
module Leadership {
  import opened Types
  import opened Persistence
  import opened Quorums
  import opened Handlers
  import opened Interleaving
  import opened Merging
  import PromiseSafety

  // ----- what a move of a server means for its role -----

  predicate Wins(y: System, step: Step) {
    step.CloseElection? && step.ballot in y.elections && |y.elections[step.ballot]| >= Majority(|y.servers|)
  }

  /** A heartbeat that is not below the promise. */
  predicate Heeds(y: System, who: nat, step: Step) {
    step.DeliverHeartbeat? && who < |y.servers| && AtLeast(step.ballot, y.servers[who].disk.mem.npromised)
  }

  /** A Prepare for which a vote is logged. */
  predicate Votes(y: System, step: Step, y': System) {
    step.DeliverPrepare? && y'.events != y.events
  }

  predicate Fails(y: System, step: Step) {
    step.CloseRound? && 1 + |step.heard| < Majority(|y.servers|)
  }

  predicate Commits(y: System, step: Step) {
    step.CloseRound? && 1 + |step.heard| >= Majority(|y.servers|)
  }

  /** What ends a leadership. */
  predicate Yields(y: System, who: nat, step: Step, y': System) {
    || step.StartElection? || (step.CloseElection? && !Wins(y, step)) || Votes(y, step, y') || Heeds(y, who, step)
    || step.LoseContact? || Fails(y, step) || step.Crash?
  }

  /** What ends a candidacy: losing contact or a round is nothing to a server that does not lead. */
  predicate Settles(y: System, who: nat, step: Step, y': System) {
    step.CloseElection? || step.StartElection? || Votes(y, step, y') || Heeds(y, who, step) || step.Crash?
  }

  /** An election begun, with its ballot saved. */
  predicate Campaigns(y: System, step: Step, y': System) {
    step.StartElection? && y'.events != y.events
  }

  lemma LeaderStep(y: System, who: nat, step: Step, y': System)
    requires Next(y, who, step, y')
    ensures y'.servers[who].role == Leader <==>
      Wins(y, step) || (y.servers[who].role == Leader && !Yields(y, who, step, y'))
  {
  }

  lemma CandidateStep(y: System, who: nat, step: Step, y': System)
    requires Next(y, who, step, y')
    ensures y'.servers[who].role == Candidate <==>
      Campaigns(y, step, y') || (y.servers[who].role == Candidate && !Settles(y, who, step, y'))
  {
  }

  // ----- last set, not cleared since -----

  /** Something holds from a step that sets it, or from the start, until a step clears it. */
  ghost predicate SetSince(start: bool, sets: set<nat>, clears: set<nat>, t: nat) {
    || (start && forall m: nat :: m < t ==> m !in clears)
    || exists k: nat :: k < t && k in sets && forall m: nat :: k < m < t ==> m !in clears
  }

  /** What holds from state to state, set by some steps and cleared by others. */
  ghost predicate Switches(holds: seq<bool>, sets: set<nat>, clears: set<nat>) {
    forall k: nat :: k + 1 < |holds| ==> SwitchesAt(holds, sets, clears, k)
  }

  predicate SwitchesAt(holds: seq<bool>, sets: set<nat>, clears: set<nat>, k: nat) {
    k + 1 < |holds| && (holds[k + 1] <==> k in sets || (holds[k] && k !in clears))
  }

  lemma {:induction false} HoldsSince(holds: seq<bool>, sets: set<nat>, clears: set<nat>, t: nat)
    requires t < |holds| && Switches(holds, sets, clears)
    ensures holds[t] <==> SetSince(holds[0], sets, clears, t)
  {
    if t > 0 {
      var last := t - 1;
      HoldsSince(holds, sets, clears, last);
      assert SwitchesAt(holds, sets, clears, last);
      if k: nat :| k < last && k in sets && forall m: nat :: k < m < last ==> m !in clears {
        assert last !in clears ==> forall m: nat :: k < m < t ==> m !in clears;
      }
    }
  }

  /** Step `k` is one of `who`. */
  predicate StepsAt(run: seq<System>, moves: seq<(nat, Step)>, who: nat, k: nat) {
    k < |moves| && k + 1 < |run| && moves[k].0 == who
  }

  function Victories(run: seq<System>, moves: seq<(nat, Step)>, who: nat): set<nat> {
    set k: nat | k < |moves| && StepsAt(run, moves, who, k) && Wins(run[k], moves[k].1)
  }

  function Yieldings(run: seq<System>, moves: seq<(nat, Step)>, who: nat): set<nat> {
    set k: nat | k < |moves| && StepsAt(run, moves, who, k) && Yields(run[k], who, moves[k].1, run[k + 1])
  }

  function Campaigning(run: seq<System>, moves: seq<(nat, Step)>, who: nat): set<nat> {
    set k: nat | k < |moves| && StepsAt(run, moves, who, k) && Campaigns(run[k], moves[k].1, run[k + 1])
  }

  function Settlings(run: seq<System>, moves: seq<(nat, Step)>, who: nat): set<nat> {
    set k: nat | k < |moves| && StepsAt(run, moves, who, k) && Settles(run[k], who, moves[k].1, run[k + 1])
  }

  predicate InRole(run: seq<System>, t: nat, who: nat, role: Role) {
    t < |run| && who < |run[t].servers| && run[t].servers[who].role == role
  }

  function Leading(run: seq<System>, who: nat): seq<bool> {
    seq(|run|, t requires 0 <= t < |run| => InRole(run, t, who, Leader))
  }

  lemma LeadsNext(run: seq<System>, moves: seq<(nat, Step)>, lead: seq<bool>, k: nat, who: nat)
    requires IsRun(run, moves, lead) && k < |moves| && who < |lead|
    ensures SwitchesAt(Leading(run, who), Victories(run, moves, who), Yieldings(run, moves, who), k)
  {
    SameSize(run, moves, lead, k);
    StepOfRun(run, moves, lead, k);
    if moves[k].0 == who {
      LeaderStep(run[k], who, moves[k].1, run[k + 1]);
    }
  }

  lemma LeadingSwitches(run: seq<System>, moves: seq<(nat, Step)>, lead: seq<bool>, who: nat)
    requires IsRun(run, moves, lead) && who < |lead|
    ensures Switches(Leading(run, who), Victories(run, moves, who), Yieldings(run, moves, who))
  {
    forall k: nat | k + 1 < |run|
      ensures SwitchesAt(Leading(run, who), Victories(run, moves, who), Yieldings(run, moves, who), k)
    {
      LeadsNext(run, moves, lead, k, who);
    }
  }

  /** In every run a server leads if and only if it has won an election, or was started as leader,
      and since then has not stood again, lost an election, voted for another, heeded a heartbeat,
      lost contact, failed a round, or crashed. */
  lemma LeadsIff(run: seq<System>, moves: seq<(nat, Step)>, lead: seq<bool>, t: nat, who: nat)
    requires IsRun(run, moves, lead) && t < |run| && who < |lead|
    ensures InRole(run, t, who, Leader) <==>
      SetSince(lead[who], Victories(run, moves, who), Yieldings(run, moves, who), t)
  {
    LeadingSwitches(run, moves, lead, who);
    HoldsSince(Leading(run, who), Victories(run, moves, who), Yieldings(run, moves, who), t);
  }

  function Standing(run: seq<System>, who: nat): seq<bool> {
    seq(|run|, t requires 0 <= t < |run| => InRole(run, t, who, Candidate))
  }

  lemma StandsNext(run: seq<System>, moves: seq<(nat, Step)>, lead: seq<bool>, k: nat, who: nat)
    requires IsRun(run, moves, lead) && k < |moves| && who < |lead|
    ensures SwitchesAt(Standing(run, who), Campaigning(run, moves, who), Settlings(run, moves, who), k)
  {
    SameSize(run, moves, lead, k);
    StepOfRun(run, moves, lead, k);
    if moves[k].0 == who {
      CandidateStep(run[k], who, moves[k].1, run[k + 1]);
    }
  }

  lemma StandingSwitches(run: seq<System>, moves: seq<(nat, Step)>, lead: seq<bool>, who: nat)
    requires IsRun(run, moves, lead) && who < |lead|
    ensures Switches(Standing(run, who), Campaigning(run, moves, who), Settlings(run, moves, who))
  {
    forall k: nat | k + 1 < |run|
      ensures SwitchesAt(Standing(run, who), Campaigning(run, moves, who), Settlings(run, moves, who), k)
    {
      StandsNext(run, moves, lead, k, who);
    }
  }

  /** A server is a candidate if and only if it has begun an election, its ballot saved, and has
      since not closed it, stood again, voted for another, heeded a heartbeat, or crashed. */
  lemma StandsIff(run: seq<System>, moves: seq<(nat, Step)>, lead: seq<bool>, t: nat, who: nat)
    requires IsRun(run, moves, lead) && t < |run| && who < |lead|
    ensures InRole(run, t, who, Candidate) <==>
      SetSince(false, Campaigning(run, moves, who), Settlings(run, moves, who), t)
  {
    StandingSwitches(run, moves, lead, who);
    HoldsSince(Standing(run, who), Campaigning(run, moves, who), Settlings(run, moves, who), t);
  }

  // ----- whom a server takes for the leader -----

  /** The move names `l` as leader: a won election its own server, a heeded heartbeat its sender. */
  predicate NamesLeader(y: System, who: nat, step: Step, l: nat) {
    (Wins(y, step) && l == who) || (Heeds(y, who, step) && step.ballot.server == l)
  }

  /** The move makes the server forget `l`: it names another, a leader steps down, or a crash. */
  predicate Forgets(y: System, who: nat, step: Step, l: nat) {
    || (Wins(y, step) && l != who) || (Heeds(y, who, step) && step.ballot.server != l)
    || ((step.LoseContact? || Fails(y, step)) && who < |y.servers| && y.servers[who].role == Leader)
    || step.Crash?
  }

  function Namings(run: seq<System>, moves: seq<(nat, Step)>, who: nat, l: nat): set<nat> {
    set k: nat | k < |moves| && StepsAt(run, moves, who, k) && NamesLeader(run[k], who, moves[k].1, l)
  }

  function Forgettings(run: seq<System>, moves: seq<(nat, Step)>, who: nat, l: nat): set<nat> {
    set k: nat | k < |moves| && StepsAt(run, moves, who, k) && Forgets(run[k], who, moves[k].1, l)
  }

  lemma NamedStep(y: System, who: nat, step: Step, y': System, l: nat)
    requires Next(y, who, step, y') && y.servers[who].id == who
    ensures y'.servers[who].leader == l <==>
      NamesLeader(y, who, step, l) || (y.servers[who].leader == l && !Forgets(y, who, step, l))
  {
  }

  lemma SameId(run: seq<System>, moves: seq<(nat, Step)>, lead: seq<bool>, t: nat)
    requires IsRun(run, moves, lead) && t < |run|
    ensures forall who: nat :: who < |run[t].servers| ==> run[t].servers[who].id == who
  {
    PromiseSafety.RunInv(run, moves, lead, t);
  }

  /** The server takes `l` for the leader. */
  predicate Follows(run: seq<System>, t: nat, who: nat, l: int) {
    t < |run| && who < |run[t].servers| && run[t].servers[who].leader == l
  }

  function Knowing(run: seq<System>, who: nat, l: nat): seq<bool> {
    seq(|run|, t requires 0 <= t < |run| => Follows(run, t, who, l))
  }

  lemma KnowsNext(run: seq<System>, moves: seq<(nat, Step)>, lead: seq<bool>, k: nat, who: nat, l: nat)
    requires IsRun(run, moves, lead) && k < |moves| && who < |lead|
    ensures SwitchesAt(Knowing(run, who, l), Namings(run, moves, who, l), Forgettings(run, moves, who, l), k)
  {
    SameSize(run, moves, lead, k);
    StepOfRun(run, moves, lead, k);
    if moves[k].0 == who {
      SameId(run, moves, lead, k);
      NamedStep(run[k], who, moves[k].1, run[k + 1], l);
    }
  }

  lemma KnowingSwitches(run: seq<System>, moves: seq<(nat, Step)>, lead: seq<bool>, who: nat, l: nat)
    requires IsRun(run, moves, lead) && who < |lead|
    ensures Switches(Knowing(run, who, l), Namings(run, moves, who, l), Forgettings(run, moves, who, l))
  {
    forall k: nat | k + 1 < |run|
      ensures SwitchesAt(Knowing(run, who, l), Namings(run, moves, who, l), Forgettings(run, moves, who, l), k)
    {
      KnowsNext(run, moves, lead, k, who, l);
    }
  }

  /** In every run a server takes `l` for the leader if and only if the last it won or heeded named
      `l`, or it was started as leader itself, and it has not stepped down from leading or crashed
      since. */
  lemma KnowsLeaderIff(run: seq<System>, moves: seq<(nat, Step)>, lead: seq<bool>, t: nat, who: nat, l: nat)
    requires IsRun(run, moves, lead) && t < |run| && who < |lead|
    ensures Follows(run, t, who, l) <==>
      SetSince(lead[who] && l == who, Namings(run, moves, who, l), Forgettings(run, moves, who, l), t)
  {
    KnowingSwitches(run, moves, lead, who, l);
    HoldsSince(Knowing(run, who, l), Namings(run, moves, who, l), Forgettings(run, moves, who, l), t);
  }

  // ----- leaders and votes -----

  /** The server has not voted for another since event `i`. */
  ghost predicate NoVoteAfter(events: seq<Event>, i: int, who: nat) {
    forall j: nat :: i < j < |events| && events[j].Granted? && events[j].who == who ==> events[j].ballot.server == who
  }

  ghost predicate WonLast(events: seq<Event>, i: int, who: nat) {
    0 <= i < |events| && events[i].Won? && events[i].who == who && NoVoteAfter(events, i, who)
  }

  ghost predicate Entitled(events: seq<Event>, who: nat, bootstrap: bool) {
    (bootstrap && NoVoteAfter(events, -1, who)) || exists i :: WonLast(events, i, who)
  }

  lemma LeadsOn(y: System, mover: nat, step: Step, y': System, who: nat)
    requires Next(y, mover, step, y') && who < |y.servers| && y.servers[mover].id == mover
    requires y'.servers[who].role == Leader && !(mover == who && Wins(y, step))
    ensures y.servers[who].role == Leader
    ensures forall e <- Logged(y, mover, step) :: e.Granted? && e.who == who ==> e.ballot.server == who
  {
    if mover == who {
      LeaderStep(y, who, step, y');
    }
  }

  lemma EntitledStep(y: System, mover: nat, step: Step, y': System, who: nat, bootstrap: bool)
    requires Next(y, mover, step, y') && who < |y.servers| && y.servers[mover].id == mover
    requires y.servers[who].role == Leader ==> Entitled(y.events, who, bootstrap)
    requires y'.servers[who].role == Leader
    ensures Entitled(y'.events, who, bootstrap)
  {
    var added := Logged(y, mover, step);
    if mover == who && Wins(y, step) {
      assert y'.events == y.events + [Won(who, step.ballot, y.elections[step.ballot])];
      assert WonLast(y'.events, |y.events|, who);
    } else {
      LeadsOn(y, mover, step, y', who);
      EntitledStill(y.events, added, who, bootstrap);
    }
  }

  lemma EntitledStill(events: seq<Event>, added: seq<Event>, who: nat, bootstrap: bool)
    requires Entitled(events, who, bootstrap)
    requires forall e <- added :: e.Granted? && e.who == who ==> e.ballot.server == who
    ensures Entitled(events + added, who, bootstrap)
  {
    forall i: int | -1 <= i < |events| && NoVoteAfter(events, i, who)
      ensures NoVoteAfter(events + added, i, who)
    {
    }
    if i :| WonLast(events, i, who) {
      assert WonLast(events + added, i, who);
    }
  }

  /** In every run, a server that leads has won an election after every vote it gave to another, or
      was started as leader and has given none. */
  lemma {:induction false} LeaderHasNotVotedSince(run: seq<System>, moves: seq<(nat, Step)>, lead: seq<bool>, t: nat,
                                                  who: nat)
    requires IsRun(run, moves, lead) && t < |run| && who < |lead| && who < |run[t].servers|
    requires run[t].servers[who].role == Leader
    ensures Entitled(run[t].events, who, lead[who])
  {
    if t > 0 {
      StepOfRun(run, moves, lead, t - 1);
      SameId(run, moves, lead, t - 1);
      if run[t - 1].servers[who].role == Leader {
        LeaderHasNotVotedSince(run, moves, lead, t - 1, who);
      }
      EntitledStep(run[t - 1], moves[t - 1].0, moves[t - 1].1, run[t], who, lead[who]);
    }
  }

  // ----- how far a server knows of commits -----

  /** Move `k` told the server of a commit at `index`, and it has not crashed since. */
  ghost predicate ToldOf(run: seq<System>, moves: seq<(nat, Step)>, k: nat, t: nat, who: nat, index: int) {
    && k < t < |run| && k < |moves| && moves[k].0 == who
    && (|| (Heeds(run[k], who, moves[k].1) && moves[k].1.commitIndex == index)
        || (Commits(run[k], moves[k].1) && moves[k].1.entry.index == index))
    && forall m: nat :: k < m < t && m < |moves| ==> !(moves[m].0 == who && moves[m].1.Crash?)
  }

  /** What one move does to the commit index. */
  lemma CommitStep(y: System, who: nat, step: Step, y': System)
    requires Next(y, who, step, y')
    ensures
      var c, c' := y.servers[who].commitIndex, y'.servers[who].commitIndex;
      if Heeds(y, who, step) then c' == Max(step.commitIndex, c)
      else if Commits(y, step) then c' == Max(step.entry.index, c)
      else if step.Crash? then c' == -1
      else c' == c
  {
  }

  /** In every run a server's commit index is the highest index it was told of since it started: by
      a heartbeat it heeded or by a round of its own with a majority. */
  lemma {:induction false} CommitIndexIsHighest(run: seq<System>, moves: seq<(nat, Step)>, lead: seq<bool>, t: nat,
                                                who: nat)
    requires IsRun(run, moves, lead) && t < |run| && who < |run[t].servers|
    ensures
      var c := run[t].servers[who].commitIndex;
      && (forall k: nat, index :: ToldOf(run, moves, k, t, who, index) ==> index <= c)
      && (c != -1 ==> exists k: nat :: ToldOf(run, moves, k, t, who, c))
  {
    if t > 0 {
      var last := t - 1;
      StepOfRun(run, moves, lead, last);
      CommitIndexIsHighest(run, moves, lead, last, who);
      if moves[last].0 == who {
        CommitStep(run[last], who, moves[last].1, run[t]);
      }
      CommitHighestNext(run, moves, last, t, who);
    }
  }

  ghost predicate CommitHighest(run: seq<System>, moves: seq<(nat, Step)>, t: nat, who: nat) {
    && t < |run| && who < |run[t].servers|
    && (forall k: nat, index :: ToldOf(run, moves, k, t, who, index) ==> index <= run[t].servers[who].commitIndex)
    && (run[t].servers[who].commitIndex != -1 ==>
          exists k: nat :: ToldOf(run, moves, k, t, who, run[t].servers[who].commitIndex))
  }

  lemma CommitHighestNext(run: seq<System>, moves: seq<(nat, Step)>, last: nat, t: nat, who: nat)
    requires t == last + 1 < |run| == |moves| + 1 && CommitHighest(run, moves, last, who) && who < |run[t].servers|
    requires
      var c, c' := run[last].servers[who].commitIndex, run[t].servers[who].commitIndex;
      var y, step := run[last], moves[last].1;
      if moves[last].0 != who then c' == c
      else if Heeds(y, who, step) then c' == Max(step.commitIndex, c)
      else if Commits(y, step) then c' == Max(step.entry.index, c)
      else if step.Crash? then c' == -1
      else c' == c
    ensures CommitHighest(run, moves, t, who)
  {
    var c, c' := run[last].servers[who].commitIndex, run[t].servers[who].commitIndex;
    forall k: nat, index | ToldOf(run, moves, k, t, who, index)
      ensures index <= c'
    {
      if k < last {
        assert ToldOf(run, moves, k, last, who, index);
      }
    }
    if c' != -1 {
      if c' == c {
        var k: nat :| ToldOf(run, moves, k, last, who, c);
        assert ToldOf(run, moves, k, t, who, c');
      } else {
        assert ToldOf(run, moves, last, t, who, c');
      }
    }
  }

  // ----- answers -----

  /** In every run a heartbeat below the promise changes nothing; any other is answered with success
      and makes its receiver a follower of the sender. */
  lemma HeartbeatsAreHeeded(run: seq<System>, moves: seq<(nat, Step)>, lead: seq<bool>, k: nat)
    requires IsRun(run, moves, lead) && k < |moves| && moves[k].1.DeliverHeartbeat?
    ensures moves[k].0 < |run[k].servers| == |run[k + 1].servers|
    ensures
      var who, b := moves[k].0, moves[k].1.ballot;
      var s, s' := run[k].servers[who], run[k + 1].servers[who];
      var (_, ok, length) := HandleHeartbeat(s, b, moves[k].1.commitIndex);
      && (ok <==> AtLeast(b, s.disk.mem.npromised))
      && (ok ==> s'.role == Follower && s'.leader == b.server && s'.disk == s.disk && s'.table == s.table)
      && (!ok ==> run[k + 1].servers == run[k].servers)
  {
    StepOfRun(run, moves, lead, k);
  }

  /** With the length it is answered, a leader sends a follower that is behind exactly as many slots
      as it lacks. */
  lemma AnsweredLengthIsMissing(f: Server, b: Ballot, commitIndex: int, log: seq<Entry>)
    ensures
      var length := HandleHeartbeat(f, b, commitIndex).2;
      |f.disk.mem.log| <= |log| ==> |f.disk.mem.log| + |MissingEntries(log, length, |log|)| == |log|
  {
  }

  lemma {:induction false} InstallKeepsPromise(d: Durable, entries: seq<Entry>)
    ensures Install(d, entries).0.mem.npromised == d.mem.npromised
    decreases |entries|
  {
    if entries != [] && InstallOne(d, entries[0]).1 {
      InstallKeepsPromise(InstallOne(d, entries[0]).0, entries[1..]);
    }
  }

  /** Nothing but standing, a Prepare or a restart changes a promise; an Accept does not. */
  lemma MovedKeepsPromise(s: Server, step: Step, votes: nat, n: nat)
    requires !step.StartElection? && !step.DeliverPrepare? && !step.Crash?
    ensures Moved(s, step, votes, n).disk.mem.npromised == s.disk.mem.npromised
  {
    match step {
      case CollectPromise(_, _, entries) => AdoptIsMerge(s.disk, entries);
      case DeliverTransfer(entries) => InstallKeepsPromise(s.disk, entries);
      case _ =>
    }
  }

  /** The promise of a server that has not stood, been asked for a vote or crashed is its own first
      ballot: term 0, or term 1 if it was started as leader. */
  lemma {:induction false} FirstPromiseIsOwn(run: seq<System>, moves: seq<(nat, Step)>, lead: seq<bool>, t: nat,
                                             who: nat)
    requires IsRun(run, moves, lead) && t < |run| && who < |lead| && who < |run[t].servers|
    requires forall k: nat :: k < t && k < |moves| && moves[k].0 == who ==>
      !moves[k].1.StartElection? && !moves[k].1.DeliverPrepare? && !moves[k].1.Crash?
    ensures run[t].servers[who].disk.mem.npromised == Ballot(if lead[who] then 1 else 0, who)
  {
    if t > 0 {
      StepOfRun(run, moves, lead, t - 1);
      FirstPromiseIsOwn(run, moves, lead, t - 1, who);
      if moves[t - 1].0 == who {
        var y, step := run[t - 1], moves[t - 1].1;
        MovedKeepsPromise(y.servers[who], step, VotesFor(y, step), |y.servers|);
      }
    }
  }

  /** A refused Prepare answers the exact threshold: the same server refuses every ballot that is not
      above it, and no other. */
  lemma RefusalNamesThreshold(s: Server, b: Ballot, b': Ballot)
    requires HandlePrepare(s, b).1.Refused?
    ensures HandlePrepare(s, b').1.Refused? <==> !Above(b', HandlePrepare(s, b).1.promised)
    ensures HandlePrepare(s, b).0 == s
  {
  }

  /** And so does a refused Accept, for every ballot below it. */
  lemma RejectionNamesThreshold(s: Server, b: Ballot, e: Entry, b': Ballot, e': Entry)
    requires HandleAccept(s, b, e).1.NotAccepted?
    ensures HandleAccept(s, b', e').1.NotAccepted? <==> !AtLeast(b', HandleAccept(s, b, e).1.promised)
    ensures HandleAccept(s, b, e).0 == s
  {
  }

  /** Every answer to an Accept names the index asked about; an accepted one names the ballot that is
      recorded for that index in memory and file, with the entry in its slot. */
  lemma AnswerNamesSlot(s: Server, b: Ballot, e: Entry)
    ensures
      var (s', reply) := HandleAccept(s, b, e);
      && reply.index == e.index
      && (reply.Accepted? ==>
            && s'.disk.file == Some(s'.disk.mem) && e.index < |s'.disk.mem.log| && s'.disk.mem.log[reply.index] == e
            && e.index in s'.disk.mem.accepted && s'.disk.mem.accepted[reply.index] == reply.ballot == b)
  {
  }

  /** A promise names the ballot asked for, which is then promised in memory and file. */
  lemma PromiseNamesBallot(s: Server, b: Ballot)
    requires HandlePrepare(s, b).1.Promised?
    ensures
      var (s', reply) := HandlePrepare(s, b);
      reply.ballot == b && s'.disk.mem.npromised == reply.ballot && s'.disk.file == Some(s'.disk.mem)
  {
  }
}
