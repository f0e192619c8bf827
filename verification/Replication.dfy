/** Interleaved replication between a primary and its backup. */
module Replication {
  import opened Types
  import opened ViewService
  import opened KeyValue

  // ----- concurrent Puts -----

  /** A Put between its two critical sections: forwarded to the backup or not yet. */
  datatype Flight = Flight(w: Write, forwarded: bool)

  datatype Pair = Pair(primary: KV, backup: KV, flights: map<nat, Flight>)

  datatype Step = Begin(id: nat, w: Write) | Forward(id: nat) | Finish(id: nat)

  ghost predicate Next(p: Pair, step: Step, p': Pair) {
    match step
    case Begin(id, w) =>
      && id !in p.flights && BeginPut(p.primary, w) == (p'.primary, Proceed(p.primary.view.backup))
      && p'.backup == p.backup && p'.flights == p.flights[id := Flight(w, false)]
    case Forward(id) =>
      && id in p.flights && !p.flights[id].forwarded && p.primary.view.backup == p.backup.me
      && p'.backup == ForwardUpdate(p.backup, p.flights[id].w).0
      && p'.primary == p.primary && p'.flights == p.flights[id := p.flights[id].(forwarded := true)]
    case Finish(id) =>
      && id in p.flights && p.flights[id].forwarded
      && p' == p.(primary := FinishPut(p.primary, p.flights[id].w), flights := p.flights - {id})
  }

  /** Equal maps, no transfer, no Put in flight, and a backup in role backup. */
  ghost predicate Start(p: Pair) {
    p.primary.data == p.backup.data && !p.primary.syncing && p.flights == map[] && p.backup.role == Backup
  }

  ghost predicate IsRun(run: seq<Pair>, steps: seq<Step>) {
    && |run| == |steps| + 1 && Start(run[0])
    && forall i :: 0 <= i < |steps| ==> Next(run[i], steps[i], run[i + 1])
  }

  ghost predicate InFlight(p: Pair, key: string) {
    exists id <- p.flights :: p.flights[id].w.key == key
  }

  /** At most one Put is in flight per key. */
  ghost predicate OnePerKey(p: Pair) {
    forall a <- p.flights, b <- p.flights :: p.flights[a].w.key == p.flights[b].w.key ==> a == b
  }

  ghost predicate Agree(p: Pair, key: string) {
    && (key in p.primary.data <==> key in p.backup.data)
    && (key in p.primary.data ==> p.primary.data[key] == p.backup.data[key])
  }

  /** A Put of the key is between its forward and its local write. */
  ghost predicate Ahead(p: Pair, key: string) {
    exists id <- p.flights :: p.flights[id].w.key == key && p.flights[id].forwarded
  }

  /** Keys agree unless the backup is ahead; then the backup has the value of the Put in flight. */
  ghost predicate Tracks(p: Pair) {
    && p.backup.role == Backup
    && (forall key :: !Ahead(p, key) ==> Agree(p, key))
    && (forall id <- p.flights :: p.flights[id].forwarded ==>
          p.flights[id].w.key in p.backup.data && p.backup.data[p.flights[id].w.key] == p.flights[id].w.value)
  }

  lemma StepAgrees(p: Pair, step: Step, p': Pair, key: string)
    requires Tracks(p) && OnePerKey(p) && Next(p, step, p') && !Ahead(p', key)
    ensures Agree(p', key)
  {
    match step {
      case Begin(id, w) =>
        assert forall f <- p.flights :: f in p'.flights && p'.flights[f] == p.flights[f];
        assert !Ahead(p, key);
      case Forward(id) =>
        assert p'.flights[id].forwarded;
        assert forall f <- p.flights :: f in p'.flights && (f != id ==> p'.flights[f] == p.flights[f]);
        assert !Ahead(p, key) && key != p.flights[id].w.key;
      case Finish(id) =>
        assert forall f <- p.flights :: f != id ==> f in p'.flights && p'.flights[f] == p.flights[f];
        if key != p.flights[id].w.key {
          assert !Ahead(p, key);
        }
    }
  }

  lemma StepTracks(p: Pair, step: Step, p': Pair)
    requires Tracks(p) && OnePerKey(p) && Next(p, step, p')
    ensures Tracks(p')
  {
    forall key | !Ahead(p', key)
      ensures Agree(p', key)
    {
      StepAgrees(p, step, p', key);
    }
  }

  lemma {:induction false} RunTracks(run: seq<Pair>, steps: seq<Step>, i: nat)
    requires IsRun(run, steps) && i < |run| && forall j :: 0 <= j < i ==> OnePerKey(run[j])
    ensures Tracks(run[i])
  {
    if i > 0 {
      RunTracks(run, steps, i - 1);
      StepTracks(run[i - 1], steps[i - 1], run[i]);
    }
  }

  /** Over every interleaving of any number of Puts with at most one in flight per key, primary
      and backup agree on every key that has no Put in flight. */
  lemma PairAgrees(run: seq<Pair>, steps: seq<Step>, i: nat, key: string)
    requires IsRun(run, steps) && i < |run| && forall j :: 0 <= j < i ==> OnePerKey(run[j])
    requires !InFlight(run[i], key)
    ensures Agree(run[i], key)
  {
    RunTracks(run, steps, i);
  }

  /** Two Puts of one key whose forwards and local writes cross leave the maps different with
      nothing in flight: one Put per key at a time is needed. */
  lemma CrossedPutsDiverge(p: Pair, a: Write, b: Write) returns (run: seq<Pair>, steps: seq<Step>)
    requires Start(p) && p.primary.role == Primary && p.primary.view.backup == p.backup.me
    requires a.key == b.key && a.value != b.value
    ensures IsRun(run, steps) && run[0] == p && run[|steps|].flights == map[] && !Agree(run[|steps|], a.key)
  {
    steps := [Begin(0, a), Begin(1, b), Forward(0), Forward(1), Finish(1), Finish(0)];
    var p1 := p.(flights := map[0 := Flight(a, false)]);
    var p2 := p.(flights := map[0 := Flight(a, false), 1 := Flight(b, false)]);
    var p3 := Pair(p.primary, FinishPut(p.backup, a), map[0 := Flight(a, true), 1 := Flight(b, false)]);
    var p4 := Pair(p.primary, FinishPut(p3.backup, b), map[0 := Flight(a, true), 1 := Flight(b, true)]);
    var p5 := Pair(FinishPut(p.primary, b), p4.backup, map[0 := Flight(a, true)]);
    var p6 := Pair(FinishPut(p5.primary, a), p4.backup, map[]);
    assert p4.flights - {1} == p5.flights && p5.flights - {0} == p6.flights;
    assert Next(p, steps[0], p1) && Next(p1, steps[1], p2);
    assert Next(p2, steps[2], p3) && Next(p3, steps[3], p4);
    assert Next(p4, steps[4], p5) && Next(p5, steps[5], p6);
    run := [p, p1, p2, p3, p4, p5, p6];
  }

  /** The step is the local write of this Put. */
  ghost predicate Writes(p: Pair, step: Step, w: Write) {
    step.Finish? && step.id in p.flights && p.flights[step.id].w == w
  }

  /** A finished Put is what the primary answers until another Put of that key finishes. */
  lemma {:induction false} ReadsLastPut(run: seq<Pair>, steps: seq<Step>, i: nat, j: nat, w: Write)
    requires IsRun(run, steps) && i < j < |run| && run[i].primary.role == Primary && Writes(run[i], steps[i], w)
    requires forall m, value :: i < m < j ==> !Writes(run[m], steps[m], Write(w.key, value))
    ensures run[j].primary.role == Primary && Read(run[j].primary, w.key) == Some(w.value)
    decreases j
  {
    var p, step := run[j - 1], steps[j - 1];
    assert Next(p, step, run[j]);
    if j > i + 1 {
      ReadsLastPut(run, steps, i, j - 1, w);
      if step.Finish? {
        assert !Writes(p, step, Write(w.key, p.flights[step.id].w.value));
      }
    }
  }

  /** A key that no Put finishes for is answered as it was stored before, or, if it was not, with
      nothing; and the backup answers no read at all. */
  lemma {:induction false} ReadsUnwritten(run: seq<Pair>, steps: seq<Step>, i: nat, j: nat, key: string)
    requires IsRun(run, steps) && i <= j < |run| && run[i].primary.role == Primary
    requires forall m, value :: i <= m < j ==> !Writes(run[m], steps[m], Write(key, value))
    ensures run[j].primary.role == Primary && run[j].backup.role == Backup
    ensures
      var data := run[i].primary.data;
      Read(run[j].primary, key) == if key in data then Some(data[key]) else None
    ensures Read(run[j].backup, key) == None
    decreases j
  {
    StaysBackup(run, steps, j);
    if j > i {
      var p, step := run[j - 1], steps[j - 1];
      assert Next(p, step, run[j]);
      ReadsUnwritten(run, steps, i, j - 1, key);
      if step.Finish? {
        assert !Writes(p, step, Write(key, p.flights[step.id].w.value));
      }
    }
  }

  lemma {:induction false} StaysBackup(run: seq<Pair>, steps: seq<Step>, i: nat)
    requires IsRun(run, steps) && i < |run|
    ensures run[i].backup.role == Backup
  {
    if i > 0 {
      StaysBackup(run, steps, i - 1);
      assert Next(run[i - 1], steps[i - 1], run[i]);
    }
  }

  /** A backup that the next view makes primary answers, for a key with no Put in flight, what
      the primary would have answered. */
  lemma PromotedReadsSame(run: seq<Pair>, steps: seq<Step>, i: nat, key: string, v: View)
    requires IsRun(run, steps) && i < |run| && forall j :: 0 <= j < i ==> OnePerKey(run[j])
    requires !InFlight(run[i], key) && run[i].primary.role == Primary
    requires v.number != run[i].backup.view.number && v.primary == run[i].backup.me
    ensures Read(Observe(run[i].backup, v).0, key) == Read(run[i].primary, key)
  {
    PairAgrees(run, steps, i, key);
  }
}
