/** Runs of StateTransfer.dfy that show what the conditions of its results are for. */
module TransferLimits {
  import opened Types
  import opened KeyValue
  import opened Replication
  import opened StateTransfer

  lemma Longer(run: seq<Transfer>, moves: seq<Move>, s: KV, m: Move, t: Transfer)
      returns (run': seq<Transfer>, moves': seq<Move>)
    requires IsTransfer(run, moves, s) && Moves(run[|moves|], m, t)
    ensures IsTransfer(run', moves', s) && run' == run + [t] && moves' == moves + [m] && |run'| == |run| + 1
    ensures Alone(run, |run|) && OnePerKey(t.pair) ==> Alone(run', |run'|)
  {
    run', moves' := run + [t], moves + [m];
    forall i | 0 <= i < |moves'|
      ensures Moves(run'[i], moves'[i], run'[i + 1])
    {
      if i < |moves| {
        assert Moves(run[i], moves[i], run[i + 1]);
      }
    }
  }

  /** The backup a transfer starts with, and the Puts in flight. */
  ghost predicate Fresh(t: Transfer, s: KV, flights: map<nat, Flight>) {
    Begins(t, s) && t.pair.flights == flights
  }

  /** A Put in flight at the snapshot, forwarded already or with no backup to go to, whose value
      the snapshot does not have: the maps end different. */
  lemma SnapshotMissesFlight(t: Transfer, s: KV, w: Write) returns (run: seq<Transfer>, moves: seq<Move>)
    requires Fresh(t, s, map[0 := Flight(w, true)]) && s.queue == []
    requires w.key in s.data ==> s.data[w.key] != w.value
    ensures IsTransfer(run, moves, s) && run[0] == t && |run| == 4 && Alone(run, 4)
    ensures Over(run[3]) && !Agree(run[3].pair, w.key)
  {
    var p1 := t.pair.(backup := SyncState(t.pair.backup, s.data));
    var t1 := t.(pair := p1, phase := Copied, early := {0});
    var p2 := p1.(primary := FinishPut(p1.primary, w), flights := map[]);
    assert p1.flights - {0} == map[];
    var t2 := t1.(pair := p2, written := [Landed(w, false)], early := {}, missed := map[w.key := w.value]);
    var t3 := t2.(pair := p2.(primary := EndTransfer(p2.primary, true).0), phase := Flushing([], None));
    run, moves := Longer([t], [], s, Copy, t1);
    run, moves := Longer(run, moves, s, Turn(Finish(0)), t2);
    run, moves := Longer(run, moves, s, Done, t3);
  }

  /** The transfer up to the flush, with one write queued. */
  lemma OneQueued(t: Transfer, s: KV, a: Write) returns (run: seq<Transfer>, moves: seq<Move>)
    requires Fresh(t, s, map[]) && s.queue == []
    ensures IsTransfer(run, moves, s) && run[0] == t && |run| == 4 && Alone(run, 4)
    ensures run[3].phase == Flushing([a], None) && run[3].arrived == [a] && Free(run[3], s) && moves[0] == Arrive(a)
  {
    var t1 := t.(pair := t.pair.(primary := BeginPut(t.pair.primary, a).0), arrived := [a]);
    assert s.queue + [a] == [a];
    var t2 := t1.(pair := t1.pair.(backup := SyncState(t.pair.backup, s.data)), phase := Copied);
    var t3 := t2.(pair := t2.pair.(primary := EndTransfer(t2.pair.primary, true).0), phase := Flushing([a], None));
    run, moves := Longer([t], [], s, Arrive(a), t1);
    run, moves := Longer(run, moves, s, Copy, t2);
    run, moves := Longer(run, moves, s, Done, t3);
  }

  /** The flush can begin a Put, or another can, with nothing in flight. */
  ghost predicate Free(t: Transfer, s: KV) {
    && PhaseOk(t, s) && t.phase.Flushing? && t.phase.putting == None && t.pair.flights == map[]
    && t.pair.primary.view.backup == t.pair.backup.me
  }

  /** `first` begins a Put of `w`, of the flush or not. */
  ghost predicate Opens(t: Transfer, first: Move, id: nat, w: Write) {
    first == Turn(Begin(id, w)) ||
    (first == Flush(id) && t.phase.Flushing? && t.phase.rest != [] && t.phase.rest[0] == w)
  }

  lemma PutBegins(t: Transfer, s: KV, id: nat, w: Write, first: Move) returns (t': Transfer)
    requires Free(t, s) && Opens(t, first, id, w)
    ensures Moves(t, first, t') && t'.pair == t.pair.(flights := map[id := Flight(w, false)]) && OnePerKey(t'.pair)
    ensures t'.arrived == t.arrived &&
      t'.phase == if first.Flush? then Flushing(t.phase.rest[1..], Some(id)) else t.phase
  {
    t' := t.(pair := t.pair.(flights := map[id := Flight(w, false)]),
             phase := if first.Flush? then Flushing(t.phase.rest[1..], Some(id)) else t.phase);
    assert t.pair.flights[id := Flight(w, false)] == t'.pair.flights;
  }

  lemma PutForwards(t: Transfer, s: KV, id: nat, w: Write) returns (t': Transfer)
    requires PhaseOk(t, s) && t.pair.flights == map[id := Flight(w, false)]
    requires t.pair.primary.view.backup == t.pair.backup.me
    ensures Moves(t, Turn(Forward(id)), t') && t'.phase == t.phase && t'.arrived == t.arrived
    ensures t'.pair.primary == t.pair.primary && t'.pair.flights == map[id := Flight(w, true)] && OnePerKey(t'.pair)
    ensures t'.pair.backup.me == t.pair.backup.me && t'.pair.backup.role == t.pair.backup.role
  {
    var p := t.pair.(backup := ForwardUpdate(t.pair.backup, w).0, flights := map[id := Flight(w, true)]);
    assert t.pair.flights[id := t.pair.flights[id].(forwarded := true)] == p.flights;
    t' := Noted(t, Forward(id)).(pair := p);
  }

  lemma PutFinishes(t: Transfer, s: KV, id: nat, w: Write) returns (t': Transfer)
    requires PhaseOk(t, s) && t.phase.Flushing? && t.pair.flights == map[id := Flight(w, true)]
    requires t.phase.putting == None || t.phase.putting == Some(id)
    requires t.pair.primary.view.backup == t.pair.backup.me
    ensures Moves(t, Turn(Finish(id)), t') && Free(t', s) && t'.arrived == t.arrived
    ensures t'.phase == Flushing(t.phase.rest, None)
  {
    var p := t.pair.(primary := FinishPut(t.pair.primary, w), flights := map[]);
    assert t.pair.flights - {id} == map[];
    t' := Noted(t, Finish(id)).(pair := p);
  }

  /** A whole Put with nothing else in flight. */
  lemma WholePut(run: seq<Transfer>, moves: seq<Move>, s: KV, id: nat, w: Write, first: Move)
      returns (run': seq<Transfer>, moves': seq<Move>, u: Transfer, t': Transfer)
    requires IsTransfer(run, moves, s) && Alone(run, |run|) && Free(run[|moves|], s)
    requires Opens(run[|moves|], first, id, w)
    ensures IsTransfer(run', moves', s) && Alone(run', |run'|) && |run'| == |run| + 3
    ensures exists t1 :: run' == run + [t1, u, t']
    ensures moves' == moves + [first, Turn(Forward(id)), Turn(Finish(id))]
    ensures u.pair.flights == map[id := Flight(w, true)] && (IsFlush(u, id) <==> first.Flush?)
    ensures Free(t', s) && t'.arrived == run[|moves|].arrived
    ensures t'.phase.rest == if first.Flush? then run[|moves|].phase.rest[1..] else run[|moves|].phase.rest
  {
    var t := run[|moves|];
    var t1 := PutBegins(t, s, id, w, first);
    u := PutForwards(t1, s, id, w);
    t' := PutFinishes(u, s, id, w);
    run', moves' := Longer(run, moves, s, first, t1);
    run', moves' := Longer(run', moves', s, Turn(Forward(id)), u);
    run', moves' := Longer(run', moves', s, Turn(Finish(id)), t');
    assert run' == run + [t1, u, t'];
  }

  lemma ReadsQueued(run: seq<Transfer>, moves: seq<Move>, s: KV, a: Write)
    requires IsTransfer(run, moves, s) && |run| == 10 && Free(run[6], s) && run[6].phase.rest == [a]
    requires run[6].arrived == [a]
    requires moves[6] == Flush(1) && moves[7] == Turn(Forward(1)) && moves[8] == Turn(Finish(1)) && IsFlush(run[8], 1)
    requires Free(run[9], s) && run[9].phase.rest == [] && run[9].arrived == [a]
    ensures Read(run[9].pair.primary, a.key) == Some(a.value)
  {
    ReadsLastPending(run, moves, s, 6, 9, a.key);
  }

  /** A write is queued and answered; a second Put of the key begins, lands and is answered during
      the flush, before the queued write lands: the older write is what is read. */
  lemma QueuedOverwritesLater(t: Transfer, s: KV, a: Write, b: Write) returns (run: seq<Transfer>, moves: seq<Move>)
    requires Fresh(t, s, map[]) && s.queue == [] && a.key == b.key && a.value != b.value
    ensures IsTransfer(run, moves, s) && run[0] == t && |run| == 10 && Alone(run, 10) && Over(run[9])
    ensures moves[0] == Arrive(a) && LandsDirect(run[5], moves[5], b.key)
    ensures run[5].pair.flights[moves[5].step.id].w == b
    ensures Read(run[9].pair.primary, b.key) == Some(a.value)
  {
    var u, t6, v, t9;
    run, moves := OneQueued(t, s, a);
    run, moves, u, t6 := WholePut(run, moves, s, 0, b, Turn(Begin(0, b)));
    run, moves, v, t9 := WholePut(run, moves, s, 1, a, Flush(1));
    assert run[5] == u && run[6] == t6 && run[8] == v && run[9] == t9;
    assert moves[5] == Turn(Finish(0)) && moves[6] == Flush(1) && moves[7] == Turn(Forward(1)) &&
      moves[8] == Turn(Finish(1));
    ReadsQueued(run, moves, s, a);
  }
}
