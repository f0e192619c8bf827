/** The files of the servers in the runs of Interleaving.dfy, as traces of CrashSafety.dfy: which
    mutators each step calls, in order, and how each call ends. */
module DiskTraces {
  import opened Types
  import opened Persistence
  import opened Handlers
  import opened Interleaving
  import C = CrashSafety
  import PromiseSafety

  /** A call of one mutator by a handler that goes on. */
  function Called(d: Durable, m: Mutation): C.Event {
    C.Call(m, if Do(d, m).1 then C.Returned else C.Failed)
  }

  function UpdateAndAccept(d: Durable, e: Entry, ballot: Ballot): seq<C.Event> {
    var (d', ok) := Do(d, Update(e.index, e));
    [Called(d, Update(e.index, e))] + (if ok then [Called(d', Accept(e.index, ballot))] else [])
  }

  function AdoptCalls(d: Durable, entries: seq<Entry>): seq<C.Event>
    decreases |entries|
  {
    if entries == [] then []
    else
      var e := entries[0];
      (if |d.mem.log| <= e.index || Above(e.ballot, d.mem.log[e.index].ballot)
       then [Called(d, Update(e.index, e))] else [])
      + AdoptCalls(AdoptOne(d, e), entries[1..])
  }

  function InstallCalls(d: Durable, entries: seq<Entry>): seq<C.Event>
    decreases |entries|
  {
    if entries == [] then []
    else
      var e := entries[0];
      var (d', ok) := InstallOne(d, e);
      (if e.index < |d.mem.log| && AtLeast(d.mem.log[e.index].ballot, e.ballot)
       then [] else UpdateAndAccept(d, e, e.ballot))
      + (if ok then InstallCalls(d', entries[1..]) else [])
  }

  /** The mutators a server calls in a step, or its crash. */
  function Calls(s: Server, step: Step): seq<C.Event> {
    var d := s.disk;
    match step
    case StartElection => [Called(d, Promise(Ballot(d.mem.npromised.term + 1, s.id)))]
    case DeliverPrepare(b) => if Above(b, d.mem.npromised) then [Called(d, Promise(b))] else []
    case CollectPromise(_, _, entries) => AdoptCalls(d, entries)
    case Propose(e) => if s.role == Leader then [Called(d, Append(e.(ballot := d.mem.npromised)))] else []
    case DeliverAccept(_, e) => if AtLeast(e.ballot, d.mem.npromised) then UpdateAndAccept(d, e, e.ballot) else []
    case DeliverTransfer(entries) => InstallCalls(d, entries)
    case Crash => [C.Crash]
    case _ => []
  }

  /** A bootstrap leader sets its promise in memory and does not save it. */
  function BootCalls(who: nat, lead: bool): seq<C.Event> {
    if lead then [C.Call(Promise(Ballot(1, who)), C.Failed)] else []
  }

  /** All calls of server `who` up to state `t` of a run, in order. */
  function CallsUpTo(run: seq<System>, moves: seq<(nat, Step)>, lead: seq<bool>, who: nat, t: nat): seq<C.Event>
    requires t < |run| == |moves| + 1 && who < |lead|
    requires forall i :: 0 <= i < |run| ==> |run[i].servers| == |lead|
  {
    if t == 0 then BootCalls(who, lead[who])
    else
      CallsUpTo(run, moves, lead, who, t - 1)
      + (if moves[t - 1].0 == who then Calls(run[t - 1].servers[who], moves[t - 1].1) else [])
  }

  ghost predicate Same(t: C.Trace, d: Durable) {
    t.mem == d.mem && t.file == d.file
  }

  lemma {:induction false} AfterAppend(t: C.Trace, front: seq<C.Event>, back: seq<C.Event>, id: nat)
    ensures C.After(t, front + back, id) == C.After(C.After(t, front, id), back, id)
    decreases |front|
  {
    if front == [] {
      assert front + back == back;
    } else {
      assert (front + back)[1..] == front[1..] + back;
      AfterAppend(C.Next(t, front[0], id), front[1..], back, id);
    }
  }

  lemma OneCall(t: C.Trace, d: Durable, m: Mutation, id: nat)
    requires Same(t, d)
    ensures Same(C.After(t, [Called(d, m)], id), Do(d, m).0)
  {
    C.NextIsDo(t, m, d.faults, id);
    assert [Called(d, m)][1..] == [];
    assert C.After(t, [Called(d, m)], id) == C.After(C.Next(t, Called(d, m), id), [], id);
  }

  lemma TwoCalls(t: C.Trace, d: Durable, e: Entry, ballot: Ballot, id: nat)
    requires Same(t, d)
    ensures
      var (d', ok) := Do(d, Update(e.index, e));
      Same(C.After(t, UpdateAndAccept(d, e, ballot), id), if ok then Do(d', Accept(e.index, ballot)).0 else d')
  {
    var (d', ok) := Do(d, Update(e.index, e));
    var first := [Called(d, Update(e.index, e))];
    OneCall(t, d, Update(e.index, e), id);
    if ok {
      AfterAppend(t, first, [Called(d', Accept(e.index, ballot))], id);
      OneCall(C.After(t, first, id), d', Accept(e.index, ballot), id);
    } else {
      assert first + [] == first;
    }
  }

  lemma {:induction false} AdoptIsCalls(t: C.Trace, d: Durable, entries: seq<Entry>, id: nat)
    requires Same(t, d)
    ensures Same(C.After(t, AdoptCalls(d, entries), id), Adopt(d, entries))
    decreases |entries|
  {
    if entries != [] {
      var e, rest := entries[0], AdoptCalls(AdoptOne(d, entries[0]), entries[1..]);
      if |d.mem.log| <= e.index || Above(e.ballot, d.mem.log[e.index].ballot) {
        var first := [Called(d, Update(e.index, e))];
        OneCall(t, d, Update(e.index, e), id);
        AfterAppend(t, first, rest, id);
        AdoptIsCalls(C.After(t, first, id), AdoptOne(d, e), entries[1..], id);
      } else {
        assert [] + rest == rest;
        AdoptIsCalls(t, d, entries[1..], id);
      }
    }
  }

  lemma {:induction false} InstallIsCalls(t: C.Trace, d: Durable, entries: seq<Entry>, id: nat)
    requires Same(t, d)
    ensures Same(C.After(t, InstallCalls(d, entries), id), Install(d, entries).0)
    decreases |entries|
  {
    if entries != [] {
      var e := entries[0];
      var (d', ok) := InstallOne(d, e);
      var rest := if ok then InstallCalls(d', entries[1..]) else [];
      if e.index < |d.mem.log| && AtLeast(d.mem.log[e.index].ballot, e.ballot) {
        assert InstallCalls(d, entries) == [] + rest == rest;
        InstallIsCalls(t, d, entries[1..], id);
      } else {
        var first := UpdateAndAccept(d, e, e.ballot);
        TwoCalls(t, d, e, e.ballot, id);
        AfterAppend(t, first, rest, id);
        if ok {
          InstallIsCalls(C.After(t, first, id), d', entries[1..], id);
        }
      }
    }
  }

  /** What a step does to a server's memory and file is what its calls do. */
  lemma StepIsCalls(t: C.Trace, s: Server, step: Step, votes: nat, n: nat)
    requires Same(t, s.disk)
    ensures Same(C.After(t, Calls(s, step), s.id), Moved(s, step, votes, n).disk)
  {
    match step {
      case StartElection => OneCall(t, s.disk, Promise(Ballot(s.disk.mem.npromised.term + 1, s.id)), s.id);
      case DeliverPrepare(b) => OneCall(t, s.disk, Promise(b), s.id);
      case CollectPromise(_, _, entries) => AdoptIsCalls(t, s.disk, entries, s.id);
      case Propose(e) => OneCall(t, s.disk, Append(e.(ballot := s.disk.mem.npromised)), s.id);
      case DeliverAccept(_, e) => TwoCalls(t, s.disk, e, e.ballot, s.id);
      case DeliverTransfer(entries) => InstallIsCalls(t, s.disk, entries, s.id);
      case Crash =>
        assert [C.Crash][1..] == [];
        assert C.After(t, [C.Crash], s.id) == C.After(C.Next(t, C.Crash, s.id), [], s.id);
      case _ =>
    }
  }

  lemma BootIsCalls(s: Server, who: nat, lead: bool)
    requires s == Boot(who, None, s.disk.faults, lead)
    ensures Same(C.After(C.Start(None, who), BootCalls(who, lead), who), s.disk)
  {
    if lead {
      var events := BootCalls(who, lead);
      assert events[1..] == [];
      assert C.After(C.Start(None, who), events, who) == C.After(C.Next(C.Start(None, who), events[0], who), [], who);
    }
  }

  /** The trace of all calls of server `who` up to state `t`. */
  function TraceOf(run: seq<System>, moves: seq<(nat, Step)>, lead: seq<bool>, who: nat, t: nat): C.Trace
    requires t < |run| == |moves| + 1 && who < |lead|
    requires forall i :: 0 <= i < |run| ==> |run[i].servers| == |lead|
  {
    C.After(C.Start(None, who), CallsUpTo(run, moves, lead, who, t), who)
  }

  lemma TraceStep(run: seq<System>, moves: seq<(nat, Step)>, lead: seq<bool>, who: nat, k: nat)
    requires k < |moves| && |run| == |moves| + 1 && who < |lead|
    requires forall i :: 0 <= i < |run| ==> |run[i].servers| == |lead|
    requires Next(run[k], moves[k].0, moves[k].1, run[k + 1]) && run[k].servers[who].id == who
    requires Same(TraceOf(run, moves, lead, who, k), run[k].servers[who].disk)
    ensures Same(TraceOf(run, moves, lead, who, k + 1), run[k + 1].servers[who].disk)
  {
    var y, step := run[k], moves[k].1;
    var before := CallsUpTo(run, moves, lead, who, k);
    var added := if moves[k].0 == who then Calls(y.servers[who], step) else [];
    AfterAppend(C.Start(None, who), before, added, who);
    if moves[k].0 == who {
      StepIsCalls(TraceOf(run, moves, lead, who, k), y.servers[who], step, VotesFor(y, step), |y.servers|);
    }
  }

  lemma TraceNext(run: seq<System>, moves: seq<(nat, Step)>, lead: seq<bool>, who: nat, k: nat)
    requires IsRun(run, moves, lead) && k < |moves| && who < |lead|
    requires forall i :: 0 <= i < |run| ==> |run[i].servers| == |lead|
    requires Same(TraceOf(run, moves, lead, who, k), run[k].servers[who].disk)
    ensures Same(TraceOf(run, moves, lead, who, k + 1), run[k + 1].servers[who].disk)
  {
    StepOfRun(run, moves, lead, k);
    PromiseSafety.RunInv(run, moves, lead, k);
    TraceStep(run, moves, lead, who, k);
  }

  lemma {:induction false} DiskIsTrace(run: seq<System>, moves: seq<(nat, Step)>, lead: seq<bool>, who: nat, t: nat)
    requires IsRun(run, moves, lead) && t < |run| && who < |lead|
    requires forall i :: 0 <= i < |run| ==> |run[i].servers| == |lead|
    ensures Same(TraceOf(run, moves, lead, who, t), run[t].servers[who].disk)
  {
    if t == 0 {
      BootIsCalls(run[0].servers[who], who, lead[who]);
    } else {
      DiskIsTrace(run, moves, lead, who, t - 1);
      TraceNext(run, moves, lead, who, t - 1);
    }
  }

  /** In every interleaved run the file of a server, or a fresh state if it has none, is the memory
      that one of the server's mutator calls left (or the state at its start), and no call before
      the last one that returned success. */
  lemma FileIsRecentInRuns(run: seq<System>, moves: seq<(nat, Step)>, lead: seq<bool>, who: nat, t: nat)
      returns (k: nat)
    requires IsRun(run, moves, lead) && t < |run| && who < |lead|
    ensures forall i :: 0 <= i < |run| ==> |run[i].servers| == |lead|
    ensures
      var z := TraceOf(run, moves, lead, who, t);
      z.confirmed <= k < |z.past| && z.past[k] == Loaded(run[t].servers[who].disk.file, who)
  {
    forall i | 0 <= i < |run|
      ensures |run[i].servers| == |lead|
    {
      SameSize(run, moves, lead, i);
    }
    DiskIsTrace(run, moves, lead, who, t);
    C.FileIsRecentFromStart(None, CallsUpTo(run, moves, lead, who, t), who);
    k :| C.FileIs(TraceOf(run, moves, lead, who, t), k, who);
  }
}
