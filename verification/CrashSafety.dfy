/** The file under any sequence of mutator calls, failing saves and crashes. */
module CrashSafety {
  import opened Types
  import opened Persistence

  /** How a mutator call ends: it returns success, returns an error, or the process dies
      inside it before or after the file was replaced. */
  datatype Ending = Returned | Failed | DiedBefore | DiedAfter

  datatype Event = Call(m: Mutation, ending: Ending) | Crash

  /** Memory and file, the memory states mutators have left (`past`, begun by the state at
      start), and the position in `past` of the last mutator that returned success. */
  datatype Trace = Trace(mem: Saved, file: Option<Saved>, past: seq<Saved>, confirmed: nat)

  function Start(file: Option<Saved>, id: nat): Trace {
    Trace(Loaded(file, id), file, [Loaded(file, id)], 0)
  }

  function Next(t: Trace, ev: Event, id: nat): Trace {
    match ev
    case Crash => t.(mem := Loaded(t.file, id))
    case Call(m, ending) =>
      var mem := Mutate(t.mem, m);
      var file := if ending.Returned? || ending.DiedAfter? then Some(mem) else t.file;
      Trace(if ending.DiedBefore? || ending.DiedAfter? then Loaded(file, id) else mem,
            file,
            t.past + [mem],
            if ending.Returned? then |t.past| else t.confirmed)
  }

  function After(t: Trace, events: seq<Event>, id: nat): Trace
    decreases |events|
  {
    if events == [] then t else After(Next(t, events[0], id), events[1..], id)
  }

  /** Calls that return are the `Do` steps that the server's handlers take. */
  lemma NextIsDo(t: Trace, m: Mutation, faults: seq<bool>, id: nat)
    ensures
      var (d, ok) := Do(Durable(t.mem, t.file, faults), m);
      var t' := Next(t, Call(m, if ok then Returned else Failed), id);
      t'.mem == d.mem && t'.file == d.file
  {
  }

  /** `k` witnesses that the file is the memory some mutator left, none before the last success. */
  ghost predicate FileIs(t: Trace, k: nat, id: nat) {
    t.confirmed <= k < |t.past| && Loaded(t.file, id) == t.past[k]
  }

  /** The file always equals the memory state after some mutator (or the state at start),
      never one earlier than the last mutator that returned success. */
  lemma {:induction false} FileIsRecent(t: Trace, k: nat, events: seq<Event>, id: nat)
    requires FileIs(t, k, id)
    ensures exists k' :: FileIs(After(t, events, id), k', id)
    decreases |events|
  {
    if events != [] {
      var ev := events[0];
      var t' := Next(t, ev, id);
      assert After(t, events, id) == After(t', events[1..], id);
      if ev.Call? && (ev.ending.Returned? || ev.ending.DiedAfter?) {
        assert FileIs(t', |t.past|, id);
        FileIsRecent(t', |t.past|, events[1..], id);
      } else {
        assert FileIs(t', k, id);
        FileIsRecent(t', k, events[1..], id);
      }
    } else {
      assert FileIs(After(t, events, id), k, id);
    }
  }

  lemma FileIsRecentFromStart(file: Option<Saved>, events: seq<Event>, id: nat)
    ensures exists k :: FileIs(After(Start(file, id), events, id), k, id)
  {
    assert FileIs(Start(file, id), 0, id);
    FileIsRecent(Start(file, id), 0, events, id);
  }

  ghost predicate Keeps(m: Mutation, p: Saved -> bool) {
    forall s :: p(s) ==> p(Mutate(s, m))
  }

  ghost predicate AllKeep(events: seq<Event>, p: Saved -> bool) {
    forall i :: 0 <= i < |events| && events[i].Call? ==> Keeps(events[i].m, p)
  }

  lemma {:induction false} BothStay(t: Trace, events: seq<Event>, p: Saved -> bool, id: nat)
    requires p(t.mem) && p(Loaded(t.file, id))
    requires AllKeep(events, p)
    ensures p(After(t, events, id).mem) && p(Loaded(After(t, events, id).file, id))
    decreases |events|
  {
    if events != [] {
      var ev := events[0];
      if ev.Call? {
        assert Keeps(events[0].m, p);
      }
      forall i | 0 <= i < |events[1..]| && events[1..][i].Call?
        ensures Keeps(events[1..][i].m, p)
      {
        assert events[1..][i] == events[i + 1];
      }
      BothStay(Next(t, ev, id), events[1..], p, id);
    }
  }

  /** Whatever a successful mutator established is in memory and in the reloaded state after
      any later calls, failures and crashes, unless a later mutator undid it. */
  lemma ConfirmedSurvives(t: Trace, m: Mutation, later: seq<Event>, p: Saved -> bool, id: nat)
    requires p(Mutate(t.mem, m))
    requires AllKeep(later, p)
    ensures p(After(t, [Call(m, Returned)] + later, id).mem)
    ensures p(Loaded(After(t, [Call(m, Returned)] + later, id).file, id))
  {
    var all := [Call(m, Returned)] + later;
    assert all[0] == Call(m, Returned) && all[1..] == later;
    BothStay(Next(t, all[0], id), later, p, id);
  }

  ghost predicate Raises(ev: Event, ballot: Ballot) {
    ev.Call? && ev.m.Promise? ==> AtLeast(ev.m.ballot, ballot)
  }

  /** A promise that was saved is never lost while later promises do not go below it. */
  lemma PromiseSurvives(t: Trace, ballot: Ballot, later: seq<Event>, id: nat)
    requires forall i :: 0 <= i < |later| ==> Raises(later[i], ballot)
    ensures AtLeast(Loaded(After(t, [Call(Promise(ballot), Returned)] + later, id).file, id).npromised, ballot)
  {
    var p := (s: Saved) => AtLeast(s.npromised, ballot);
    forall i | 0 <= i < |later| && later[i].Call?
      ensures Keeps(later[i].m, p)
    {
      assert Raises(later[i], ballot);
    }
    ConfirmedSurvives(t, Promise(ballot), later, p, id);
  }

  /** A saved slot is in every later reload unless that slot is written again. */
  lemma SlotSurvives(t: Trace, e: Entry, later: seq<Event>, id: nat)
    requires forall i :: 0 <= i < |later| && later[i].Call? && later[i].m.Update? ==> later[i].m.index != e.index
    ensures
      var s := Loaded(After(t, [Call(Update(e.index, e), Returned)] + later, id).file, id);
      e.index < |s.log| && s.log[e.index] == e
  {
    var p := (s: Saved) => e.index < |s.log| && s.log[e.index] == e;
    forall i | 0 <= i < |later| && later[i].Call?
      ensures Keeps(later[i].m, p)
    {
    }
    ConfirmedSurvives(t, Update(e.index, e), later, p, id);
  }

  // ----- which saves fail -----

  /** The state after these mutator calls, whether their saves succeed or not. */
  function DoAll(d: Durable, calls: seq<Mutation>): Durable
    decreases |calls|
  {
    if calls == [] then d else DoAll(Do(d, calls[0]).0, calls[1..])
  }

  /** Each save takes the next of the file system's answers, so the call after `n` others fails
      exactly when answer `n` says so; past the answers all succeed. */
  lemma {:induction false} SavesTakeAnswers(d: Durable, calls: seq<Mutation>, m: Mutation)
    ensures Do(DoAll(d, calls), m).1 <==> |calls| < |d.faults| ==> !d.faults[|calls|]
    decreases |calls|
  {
    if calls != [] {
      SavesTakeAnswers(Do(d, calls[0]).0, calls[1..], m);
    }
  }
}
