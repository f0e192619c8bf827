/** Promises and elections in the runs of Interleaving.dfy. */
module PromiseSafety {
  import opened Types
  import opened Persistence
  import opened Quorums
  import opened Handlers
  import opened Interleaving

  // ----- pledges -----

  ghost predicate KeepsPledges(d: Durable, d': Durable) {
    forall b :: Pledged(d, b) ==> Pledged(d', b)
  }

  lemma {:induction false} AdoptKeepsPledges(d: Durable, entries: seq<Entry>)
    ensures KeepsPledges(d, Adopt(d, entries))
    decreases |entries|
  {
    if entries != [] {
      AdoptKeepsPledges(AdoptOne(d, entries[0]), entries[1..]);
    }
  }

  lemma {:induction false} InstallKeepsPledges(d: Durable, entries: seq<Entry>)
    ensures KeepsPledges(d, Install(d, entries).0)
    decreases |entries|
  {
    if entries != [] && InstallOne(d, entries[0]).1 {
      InstallKeepsPledges(InstallOne(d, entries[0]).0, entries[1..]);
    }
  }

  ghost predicate Sane(y: System) {
    |y.learners| == |y.servers| && forall i :: 0 <= i < |y.servers| ==> y.servers[i].id == i
  }

  /** No step takes back a pledge, whatever fails and whoever crashes. */
  lemma MovedKeepsPledges(s: Server, step: Step, votes: nat, n: nat)
    ensures Moved(s, step, votes, n).id == s.id
    ensures KeepsPledges(s.disk, Moved(s, step, votes, n).disk)
  {
    match step {
      case CollectPromise(_, _, entries) => AdoptKeepsPledges(s.disk, entries);
      case DeliverTransfer(entries) => InstallKeepsPledges(s.disk, entries);
      case _ =>
    }
  }

  ghost predicate AllPledgesKept(y: System, y': System) {
    |y'.servers| == |y.servers|
    && forall i :: 0 <= i < |y.servers| ==> KeepsPledges(y.servers[i].disk, y'.servers[i].disk)
  }

  lemma StepKeepsPledges(y: System, who: nat, step: Step, y': System)
    requires Sane(y) && Next(y, who, step, y')
    ensures Sane(y') && AllPledgesKept(y, y')
  {
    MovedKeepsPledges(y.servers[who], step, VotesFor(y, step), |y.servers|);
  }

  // ----- what a step logs -----

  /** A vote for `b` is given above the promise before, and is a pledge after. */
  ghost predicate NewVote(y: System, who: nat, y': System, b: Ballot) {
    && who < |y.servers| == |y'.servers|
    && Above(b, y.servers[who].disk.mem.npromised) && Pledged(y'.servers[who].disk, b)
  }

  /** The events a step of `who` appends. */
  ghost predicate Logs(y: System, who: nat, y': System, added: seq<Event>) {
    || added == []
    || (|added| == 2 && added[0].Campaigned? && added[0].who == who == added[0].ballot.server
        && added[1] == Granted(who, added[0].ballot) && NewVote(y, who, y', added[0].ballot))
    || (|added| == 1 && added[0].Granted? && added[0].who == who && NewVote(y, who, y', added[0].ballot))
    || (|added| == 1 && added[0].RepliedAccepted? && added[0].who == who < |y.servers|
        && AtLeast(added[0].ballot, y.servers[who].disk.mem.npromised))
    || (|added| == 1 && added[0].Won? && added[0].who == who && added[0].ballot in y.elections
        && added[0].voters == y.elections[added[0].ballot] && |added[0].voters| >= Majority(|y.servers|))
  }

  lemma StepLogs(y: System, who: nat, step: Step, y': System)
    requires Sane(y) && Next(y, who, step, y')
    ensures Logs(y, who, y', Logged(y, who, step))
  {
  }

  // ----- promises hold -----

  ghost predicate VotesPledged(y: System) {
    forall e <- y.events :: e.Granted? ==> e.who < |y.servers| && Pledged(y.servers[e.who].disk, e.ballot)
  }

  /** After a vote for a ballot, the same server neither votes at or below it nor replies
      accepted below it. */
  ghost predicate Holds(first: Event, later: Event) {
    first.Granted? && later.who == first.who ==>
      && (later.Granted? ==> Above(later.ballot, first.ballot))
      && (later.RepliedAccepted? ==> AtLeast(later.ballot, first.ballot))
  }

  ghost predicate PromisesHold(events: seq<Event>) {
    forall i, j :: 0 <= i < j < |events| ==> Holds(events[i], events[j])
  }

  lemma LoggedKeepsPromises(y: System, who: nat, y': System, added: seq<Event>)
    requires VotesPledged(y) && PromisesHold(y.events)
    requires y'.events == y.events + added && Logs(y, who, y', added) && AllPledgesKept(y, y')
    ensures VotesPledged(y') && PromisesHold(y'.events)
  {
    forall i, j | 0 <= i < j < |y'.events|
      ensures Holds(y'.events[i], y'.events[j])
    {
      if i < |y.events| {
        assert y'.events[i] == y.events[i] && y.events[i] in y.events;
      }
      assert j < |y.events| ==> y'.events[j] == y.events[j];
    }
  }

  // ----- elections -----

  ghost predicate VotedBy(events: seq<Event>, voters: set<nat>, b: Ballot, n: nat) {
    b.server in voters && forall v <- voters :: v < n && Granted(v, b) in events
  }

  ghost predicate CountsOk(y: System) {
    && (forall b <- y.elections :: VotedBy(y.events, y.elections[b], b, |y.servers|))
    && (forall m <- y.sent :: m.PromiseMsg? ==> m.from < |y.servers| && Granted(m.from, m.ballot) in y.events)
  }

  ghost predicate CampaignsOk(events: seq<Event>) {
    forall i :: 0 <= i < |events| && events[i].Campaigned? ==>
      i + 1 < |events| && events[i + 1] == Granted(events[i].who, events[i].ballot)
      && events[i].who == events[i].ballot.server
  }

  ghost predicate WinOk(y: System, e: Event) {
    && e.Won?
    && e.ballot !in y.elections
    && |e.voters| >= Majority(|y.servers|)
    && VotedBy(y.events, e.voters, e.ballot, |y.servers|)
  }

  ghost predicate WinsOk(y: System) {
    && (forall e <- y.events | e.Won? :: WinOk(y, e))
    && (forall i, j :: 0 <= i < j < |y.events| && y.events[i].Won? && y.events[j].Won? ==>
          y.events[i].ballot != y.events[j].ballot)
  }

  ghost predicate Inv(y: System) {
    Sane(y) && VotesPledged(y) && PromisesHold(y.events) && CountsOk(y) && CampaignsOk(y.events) && WinsOk(y)
  }

  lemma StepKeepsCampaigns(y: System, who: nat, step: Step, y': System)
    requires Sane(y) && CampaignsOk(y.events) && Next(y, who, step, y')
    ensures CampaignsOk(y'.events)
  {
    StepLogs(y, who, step, y');
    LoggedKeepsCampaigns(y, who, y', Logged(y, who, step));
  }

  lemma LoggedKeepsCampaigns(y: System, who: nat, y': System, added: seq<Event>)
    requires CampaignsOk(y.events) && y'.events == y.events + added && Logs(y, who, y', added)
    ensures CampaignsOk(y'.events)
  {
  }

  /** A running election was running before with the same voters, or counted one more whose
      promise had been sent, or was opened by this step with its own vote. */
  ghost predicate CountedFrom(y: System, y': System, b: Ballot) {
    b in y'.elections &&
    (|| (y'.elections[b] == {b.server} && Granted(b.server, b) in y'.events)
     || (b in y.elections && y'.elections[b] == y.elections[b])
     || (b in y.elections &&
         exists m <- y.sent :: m.PromiseMsg? && m.ballot == b && y'.elections[b] == y.elections[b] + {m.from}))
  }

  lemma StepCounts(y: System, who: nat, step: Step, y': System, b: Ballot)
    requires Sane(y) && Next(y, who, step, y') && b in y'.elections
    ensures CountedFrom(y, y', b)
    ensures b in y.elections || (b.server == who && BeginElection(y.servers[who]).1 == Some(b))
  {
    var added := Logged(y, who, step);
    match step {
      case StartElection =>
        assert added != [] ==> added[1] in y'.events;
      case CollectPromise(from, ballot, entries) =>
        assert PromiseMsg(from, ballot, entries) in y.sent;
      case _ =>
    }
  }

  lemma StepSends(y: System, who: nat, step: Step, y': System)
    requires Next(y, who, step, y')
    ensures forall m <- y'.sent - y.sent :: m.PromiseMsg? ==> m.from == who && Granted(m.from, m.ballot) in y'.events
  {
    assert forall e <- Logged(y, who, step) :: e in y'.events;
    if step.DeliverPrepare? && Logged(y, who, step) != [] {
      assert Logged(y, who, step)[0] in y'.events;
    }
  }

  lemma StepKeepsCounts(y: System, who: nat, step: Step, y': System)
    requires Sane(y) && CountsOk(y) && Next(y, who, step, y')
    ensures CountsOk(y')
  {
    StepSends(y, who, step, y');
    assert forall e <- y.events :: e in y'.events;
    forall b <- y'.elections
      ensures VotedBy(y'.events, y'.elections[b], b, |y'.servers|)
    {
      StepCounts(y, who, step, y', b);
      if b in y.elections {
        assert VotedBy(y.events, y.elections[b], b, |y.servers|);
      }
    }
  }

  /** A ballot that starts an election was never voted for by its server. */
  lemma NewBallotUnvoted(y: System, who: nat, b: Ballot)
    requires Sane(y) && VotesPledged(y) && who < |y.servers|
    requires BeginElection(y.servers[who]).1 == Some(b)
    ensures Granted(who, b) !in y.events
  {
  }

  lemma OldWinsStay(y: System, who: nat, step: Step, y': System, e: Event)
    requires Inv(y) && Next(y, who, step, y') && e in y.events && e.Won?
    ensures WinOk(y', e)
  {
    assert WinOk(y, e);
    assert forall x <- y.events :: x in y'.events;
    if e.ballot in y'.elections {
      StepCounts(y, who, step, y', e.ballot);
      NewBallotUnvoted(y, who, e.ballot);
    }
  }

  lemma NewWinIsOk(y: System, who: nat, ballot: Ballot, y': System)
    requires Inv(y) && Next(y, who, CloseElection(ballot), y') && |y.elections[ballot]| >= Majority(|y.servers|)
    ensures WinOk(y', Won(who, ballot, y.elections[ballot]))
  {
    assert VotedBy(y.events, y.elections[ballot], ballot, |y.servers|);
    assert forall x <- y.events :: x in y'.events;
  }

  /** An election that is still counting has not won. */
  lemma NewWinIsNew(y: System, who: nat, y': System, added: seq<Event>, i: nat)
    requires WinsOk(y) && Logs(y, who, y', added) && i < |y.events| && y.events[i].Won?
    requires added != [] && added[0].Won?
    ensures y.events[i].ballot != added[0].ballot
  {
    assert y.events[i] in y.events;
    assert WinOk(y, y.events[i]);
  }

  lemma WinsStayApart(y: System, who: nat, y': System, added: seq<Event>)
    requires WinsOk(y) && y'.events == y.events + added && Logs(y, who, y', added)
    ensures forall i, j :: 0 <= i < j < |y'.events| && y'.events[i].Won? && y'.events[j].Won? ==>
      y'.events[i].ballot != y'.events[j].ballot
  {
    forall i, j | 0 <= i < j < |y'.events| && y'.events[i].Won? && y'.events[j].Won?
      ensures y'.events[i].ballot != y'.events[j].ballot
    {
      var n := |y.events|;
      assert forall k :: 0 <= k < |y'.events| ==> y'.events[k] == if k < n then y.events[k] else added[k - n];
      if n <= j {
        assert j == n && |added| == 1;
        NewWinIsNew(y, who, y', added, i);
      }
    }
  }

  lemma StepKeepsWins(y: System, who: nat, step: Step, y': System)
    requires Inv(y) && Next(y, who, step, y')
    ensures WinsOk(y')
  {
    StepLogs(y, who, step, y');
    WinsStayApart(y, who, y', Logged(y, who, step));
    forall e <- y'.events | e.Won?
      ensures WinOk(y', e)
    {
      if e in y.events {
        OldWinsStay(y, who, step, y', e);
      } else {
        assert e in Logged(y, who, step);
        NewWinIsOk(y, who, e.ballot, y');
      }
    }
  }

  lemma StepKeepsInv(y: System, who: nat, step: Step, y': System)
    requires Inv(y) && Next(y, who, step, y')
    ensures Inv(y')
  {
    StepLogs(y, who, step, y');
    StepKeepsPledges(y, who, step, y');
    LoggedKeepsPromises(y, who, y', Logged(y, who, step));
    StepKeepsCounts(y, who, step, y');
    StepKeepsCampaigns(y, who, step, y');
    StepKeepsWins(y, who, step, y');
  }

  lemma {:induction false} RunInv(run: seq<System>, moves: seq<(nat, Step)>, lead: seq<bool>, i: nat)
    requires IsRun(run, moves, lead) && i < |run|
    ensures Inv(run[i])
  {
    if i > 0 {
      RunInv(run, moves, lead, i - 1);
      StepKeepsInv(run[i - 1], moves[i - 1].0, moves[i - 1].1, run[i]);
    }
  }

  lemma VotesInOrder(events: seq<Event>, i: nat, j: nat)
    requires PromisesHold(events) && i < |events| && j < |events| && i != j
    requires events[i].Granted? && events[j].Granted? && events[i].who == events[j].who
    ensures i < j <==> Above(events[j].ballot, events[i].ballot)
  {
    if i < j {
      assert Holds(events[i], events[j]);
    } else {
      assert Holds(events[j], events[i]);
    }
  }

  // ----- main results -----

  /** In every run, once a server has voted for a ballot it never later votes at or below it,
      and never later replies accepted below it. */
  lemma PromisesAreKept(run: seq<System>, moves: seq<(nat, Step)>, lead: seq<bool>, t: nat, i: nat, j: nat)
    requires IsRun(run, moves, lead) && t < |run| && i < j < |run[t].events|
    requires run[t].events[i].Granted? && run[t].events[j].who == run[t].events[i].who
    ensures run[t].events[j].Granted? ==> Above(run[t].events[j].ballot, run[t].events[i].ballot)
    ensures run[t].events[j].RepliedAccepted? ==> AtLeast(run[t].events[j].ballot, run[t].events[i].ballot)
  {
    RunInv(run, moves, lead, t);
    assert Holds(run[t].events[i], run[t].events[j]);
  }

  /** No ballot is ever sent in Prepare by two elections. */
  lemma BallotsCampaignOnce(run: seq<System>, moves: seq<(nat, Step)>, lead: seq<bool>, t: nat, i: nat, j: nat)
    requires IsRun(run, moves, lead) && t < |run| && i < j < |run[t].events|
    requires run[t].events[i].Campaigned? && run[t].events[j].Campaigned?
    ensures run[t].events[i].ballot != run[t].events[j].ballot
  {
    RunInv(run, moves, lead, t);
    assert Holds(run[t].events[i + 1], run[t].events[j + 1]);
  }

  /** Two winning elections have different ballots, and some server voted in both, for the
      lower ballot first. */
  lemma WinnersShareVoter(run: seq<System>, moves: seq<(nat, Step)>, lead: seq<bool>, t: nat, low: Event, high: Event)
      returns (v: nat, i: nat, j: nat)
    requires IsRun(run, moves, lead) && t < |run|
    requires low in run[t].events && low.Won? && high in run[t].events && high.Won?
    requires Above(high.ballot, low.ballot)
    ensures v in low.voters && v in high.voters && i < j < |run[t].events|
    ensures run[t].events[i] == Granted(v, low.ballot) && run[t].events[j] == Granted(v, high.ballot)
  {
    RunInv(run, moves, lead, t);
    var events := run[t].events;
    v := Overlap(low.voters, high.voters, |run[t].servers|);
    i :| 0 <= i < |events| && events[i] == Granted(v, low.ballot);
    j :| 0 <= j < |events| && events[j] == Granted(v, high.ballot);
    VotesInOrder(events, i, j);
  }

  lemma WinnersDiffer(run: seq<System>, moves: seq<(nat, Step)>, lead: seq<bool>, t: nat, i: nat, j: nat)
    requires IsRun(run, moves, lead) && t < |run| && i < j < |run[t].events|
    requires run[t].events[i].Won? && run[t].events[j].Won?
    ensures run[t].events[i].ballot != run[t].events[j].ballot
  {
    RunInv(run, moves, lead, t);
  }
}
