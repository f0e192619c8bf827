/** Nothing in a log is invented, in the runs of Interleaving.dfy. */
module Provenance {
  import opened Types
  import opened Persistence
  import opened Handlers
  import opened Interleaving
  import opened Merging

  ghost predicate AllSupplied(entries: seq<Entry>, proposed: set<Entry>) {
    forall i :: 0 <= i < |entries| ==> Supplied(entries[i], proposed)
  }

  ghost predicate Drawn(d: Durable, proposed: set<Entry>) {
    AllSupplied(d.mem.log, proposed) && (d.file.Some? ==> AllSupplied(d.file.value.log, proposed))
  }

  lemma {:induction false} AdoptDraws(d: Durable, entries: seq<Entry>, proposed: set<Entry>)
    requires Drawn(d, proposed) && AllSupplied(entries, proposed)
    ensures Drawn(Adopt(d, entries), proposed)
    decreases |entries|
  {
    if entries != [] {
      AdoptDraws(AdoptOne(d, entries[0]), entries[1..], proposed);
    }
  }

  lemma {:induction false} InstallDraws(d: Durable, entries: seq<Entry>, proposed: set<Entry>)
    requires Drawn(d, proposed) && AllSupplied(entries, proposed)
    ensures Drawn(Install(d, entries).0, proposed)
    decreases |entries|
  {
    if entries != [] {
      var (d', ok) := InstallOne(d, entries[0]);
      if ok {
        InstallDraws(d', entries[1..], proposed);
      }
    }
  }

  /** A mutator that writes, if anything, a supplied entry. */
  ghost predicate WritesFrom(m: Mutation, proposed: set<Entry>) {
    match m
    case Append(e) => Supplied(e, proposed)
    case Update(_, e) => Supplied(e, proposed)
    case _ => true
  }

  lemma DoDraws(d: Durable, m: Mutation, proposed: set<Entry>)
    requires Drawn(d, proposed) && WritesFrom(m, proposed)
    ensures Drawn(Do(d, m).0, proposed)
  {
  }

  ghost predicate MessageOk(m: Message, proposed: set<Entry>) {
    match m
    case PromiseMsg(_, _, entries) => AllSupplied(entries, proposed)
    case TransferMsg(entries) => AllSupplied(entries, proposed)
    case AcceptMsg(_, entry) => entry in proposed
    case _ => true
  }

  /** A write that stores a value stores one that a client put. */
  ghost predicate ClientWrite(e: Entry, puts: set<(string, string)>) {
    e.op == Operation.Put ==> (e.key, e.value) in puts
  }

  ghost predicate WritesOk(y: System) {
    (forall r <- y.requests :: ClientWrite(r.1, y.puts)) && (forall e <- y.proposed :: ClientWrite(e, y.puts))
  }

  ghost predicate LearnedOk(l: Learner, proposed: set<Entry>) {
    forall k :: 0 <= k < |l.applied| ==> Supplied(l.applied[k].entry, proposed)
  }

  ghost predicate Inv(y: System) {
    && |y.learners| == |y.servers|
    && (forall i :: 0 <= i < |y.servers| ==> Drawn(y.servers[i].disk, y.proposed))
    && (forall i :: 0 <= i < |y.servers| ==> LearnedOk(y.learners[i], y.proposed))
    && (forall m <- y.sent :: MessageOk(m, y.proposed))
    && WritesOk(y)
  }

  /** The entry or entries that a step may write are supplied. */
  ghost predicate Feeds(step: Step, s: Server, proposed: set<Entry>) {
    match step
    case CollectPromise(_, _, entries) => AllSupplied(entries, proposed)
    case DeliverTransfer(entries) => AllSupplied(entries, proposed)
    case DeliverAccept(_, entry) => Supplied(entry, proposed)
    case Propose(entry) => s.role == Leader ==> Supplied(entry.(ballot := s.disk.mem.npromised), proposed)
    case _ => true
  }

  lemma MovedStaysDrawn(s: Server, step: Step, votes: nat, n: nat, proposed: set<Entry>)
    requires Drawn(s.disk, proposed) && Feeds(step, s, proposed)
    ensures Drawn(Moved(s, step, votes, n).disk, proposed)
  {
    var d, np := s.disk, s.disk.mem.npromised;
    match step {
      case CollectPromise(_, _, entries) => AdoptDraws(d, entries, proposed);
      case DeliverTransfer(entries) => InstallDraws(d, entries, proposed);
      case DeliverAccept(_, entry) =>
        DoDraws(d, Update(entry.index, entry), proposed);
        DoDraws(Do(d, Update(entry.index, entry)).0, Accept(entry.index, entry.ballot), proposed);
      case Propose(entry) =>
        if s.role == Leader {
          DoDraws(d, Append(entry.(ballot := np)), proposed);
        }
      case _ =>
    }
  }

  lemma StepFeeds(y: System, who: nat, step: Step, y': System)
    requires Inv(y) && Next(y, who, step, y')
    ensures Feeds(step, y.servers[who], y'.proposed)
  {
    match step {
      case CollectPromise(from, ballot, entries) =>
        assert MessageOk(PromiseMsg(from, ballot, entries), y.proposed);
      case DeliverTransfer(entries) =>
        assert MessageOk(TransferMsg(entries), y.proposed);
      case DeliverAccept(from, entry) =>
        assert MessageOk(AcceptMsg(from, entry), y.proposed);
      case _ =>
    }
  }

  lemma NewMessageOk(y: System, who: nat, step: Step, y': System, m: Message)
    requires Inv(y) && Next(y, who, step, y') && m in Sends(y.servers[who], who, step)
    ensures MessageOk(m, y'.proposed)
  {
    var s := y.servers[who];
    assert Drawn(s.disk, y.proposed);
    if step.DeliverPrepare? {
      forall i | 0 <= i < |m.entries|
        ensures Supplied(m.entries[i], y.proposed)
      {
        assert m.entries[i] in Reported(HandlePrepare(s, step.ballot).0.disk.mem);
      }
    }
  }

  lemma StepKeepsMessages(y: System, who: nat, step: Step, y': System)
    requires Inv(y) && Next(y, who, step, y')
    ensures forall m <- y'.sent :: MessageOk(m, y'.proposed)
  {
    forall m <- y'.sent
      ensures MessageOk(m, y'.proposed)
    {
      if m in y.sent {
        assert MessageOk(m, y.proposed);
      } else {
        NewMessageOk(y, who, step, y', m);
      }
    }
  }

  lemma StepKeepsWrites(y: System, who: nat, step: Step, y': System)
    requires Inv(y) && Next(y, who, step, y')
    ensures WritesOk(y')
  {
    if step.Propose? {
      assert ClientWrite((who, step.entry).1, y.puts);
    }
  }

  lemma StepKeepsLearned(y: System, who: nat, step: Step, y': System)
    requires Inv(y) && Next(y, who, step, y')
    ensures forall i :: 0 <= i < |y'.servers| ==> LearnedOk(y'.learners[i], y'.proposed)
  {
    forall i | 0 <= i < |y'.servers|
      ensures LearnedOk(y'.learners[i], y'.proposed)
    {
      assert LearnedOk(y.learners[i], y.proposed) && Drawn(y.servers[i].disk, y.proposed);
    }
  }

  lemma StepKeepsInv(y: System, who: nat, step: Step, y': System)
    requires Inv(y) && Next(y, who, step, y')
    ensures Inv(y')
  {
    forall i | 0 <= i < |y'.servers|
      ensures Drawn(y.servers[i].disk, y'.proposed)
    {
      assert Drawn(y.servers[i].disk, y.proposed);
    }
    StepFeeds(y, who, step, y');
    MovedStaysDrawn(y.servers[who], step, VotesFor(y, step), |y.servers|, y'.proposed);
    StepKeepsMessages(y, who, step, y');
    StepKeepsWrites(y, who, step, y');
    StepKeepsLearned(y, who, step, y');
  }

  lemma {:induction false} RunInv(run: seq<System>, moves: seq<(nat, Step)>, lead: seq<bool>, i: nat)
    requires IsRun(run, moves, lead) && i < |run|
    ensures Inv(run[i])
  {
    if i > 0 {
      RunInv(run, moves, lead, i - 1);
      StepKeepsInv(run[i - 1], moves[i - 1].0, moves[i - 1].1, run[i]);
    }
  }

  /** In every run, each slot of every log is blank or is, field by field, an entry that a
      leader passed through its propose step; if it stores a value, a client put that value. */
  lemma NothingInvented(run: seq<System>, moves: seq<(nat, Step)>, lead: seq<bool>, t: nat, who: nat, i: nat)
    requires IsRun(run, moves, lead) && t < |run| && who < |run[t].servers|
    requires i < |run[t].servers[who].disk.mem.log|
    ensures
      var e := run[t].servers[who].disk.mem.log[i];
      e == BLANK || (e in run[t].proposed && ClientWrite(e, run[t].puts))
  {
    RunInv(run, moves, lead, t);
    assert Drawn(run[t].servers[who].disk, run[t].proposed);
  }
}
