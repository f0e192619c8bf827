/** A state transfer from a primary to a new backup, beside Puts: those in flight when the snapshot
    is taken, those queued while the copy is on its way, and those that arrive during the flush.
    The view does not change meanwhile, and no other transfer starts. */
module StateTransfer {
  import opened Types
  import opened ViewService
  import opened KeyValue
  import opened Replication

  /** Copying a snapshot, copied, or putting the writes that were queued: `rest` are left, and
      `putting` is the Put that the flush has begun, if any. */
  datatype Phase = Copying(snapshot: Table) | Copied | Flushing(rest: seq<Write>, putting: Option<nat>)

  /** A local write at the primary, of a queued Put or of another. */
  datatype Landed = Landed(w: Write, queued: bool)

  /** Beside the pair and the phase, what has happened since the snapshot: the writes queued, the
      local writes, the Puts that had no forward left when the copy overwrote the backup, and by
      key the values that reached the primary only. */
  datatype Transfer = Transfer(
    pair: Pair,
    phase: Phase,
    arrived: seq<Write>,
    written: seq<Landed>,
    early: set<nat>,
    missed: Table)

  datatype Move = Arrive(w: Write) | Copy | Done | Flush(id: nat) | Turn(step: Step)

  predicate IsFlush(t: Transfer, id: nat) {
    t.phase.Flushing? && t.phase.putting == Some(id)
  }

  /** What a step of a Put adds to the history. */
  function Noted(t: Transfer, step: Step): Transfer {
    match step
    case Begin(_, _) => t
    case Forward(id) =>
      if id in t.pair.flights && !t.phase.Copying? then t.(missed := t.missed - {t.pair.flights[id].w.key}) else t
    case Finish(id) =>
      if id !in t.pair.flights then t
      else
        var w, queued := t.pair.flights[id].w, IsFlush(t, id);
        t.(written := t.written + [Landed(w, queued)],
           phase := if queued then t.phase.(putting := None) else t.phase,
           early := t.early - {id},
           missed := if t.phase.Copying? || id in t.early then t.missed[w.key := w.value] else t.missed)
  }

  ghost predicate Moves(t: Transfer, m: Move, t': Transfer) {
    match m
    case Arrive(w) =>
      && BeginPut(t.pair.primary, w).1 == Queued
      && t' == t.(pair := t.pair.(primary := BeginPut(t.pair.primary, w).0), arrived := t.arrived + [w])
    case Copy =>
      && t.phase.Copying?
      && t' == t.(pair := t.pair.(backup := SyncState(t.pair.backup, t.phase.snapshot)), phase := Copied,
                  early := set id | id in t.pair.flights && t.pair.flights[id].forwarded)
    case Done =>
      && t.phase.Copied?
      && var (p, pending) := EndTransfer(t.pair.primary, true);
         t' == t.(pair := t.pair.(primary := p), phase := Flushing(pending, None))
    case Flush(id) =>
      && t.phase.Flushing? && t.phase.rest != [] && t.phase.putting == None
      && Next(t.pair, Begin(id, t.phase.rest[0]), t'.pair)
      && t' == t.(pair := t'.pair, phase := Flushing(t.phase.rest[1..], Some(id)))
    case Turn(step) =>
      Next(t.pair, step, t'.pair) && t' == Noted(t, step).(pair := t'.pair)
  }

  /** What an earlier failed transfer left queued counts as arrived. The backup's data may be
      anything. A Put in flight that has no backup to go to counts as forwarded. */
  ghost predicate Begins(t: Transfer, s: KV) {
    && s.role == Primary && t.pair.backup.role == Backup && s.view.backup == t.pair.backup.me
    && t.pair.primary == BeginTransfer(s) && t.phase == Copying(s.data) && t.arrived == s.queue
    && t.written == [] && t.early == {} && t.missed == map[]
  }

  ghost predicate IsTransfer(run: seq<Transfer>, moves: seq<Move>, s: KV) {
    && |run| == |moves| + 1 && Begins(run[0], s)
    && forall i :: 0 <= i < |moves| ==> Moves(run[i], moves[i], run[i + 1])
  }

  // ----- order: what the primary has -----

  function Writes(written: seq<Landed>): (r: seq<Write>)
    ensures |r| == |written| && forall k :: 0 <= k < |r| ==> r[k] == written[k].w
  {
    seq(|written|, k requires 0 <= k < |written| => written[k].w)
  }

  function QueuedOf(written: seq<Landed>): seq<Write> {
    if written == [] then []
    else
      var front, last := written[..|written| - 1], written[|written| - 1];
      QueuedOf(front) + (if last.queued then [last.w] else [])
  }

  /** The queued writes that have not been written locally yet. */
  function Pending(t: Transfer): seq<Write> {
    match t.phase
    case Flushing(rest, putting) =>
      (if putting.Some? && putting.value in t.pair.flights then [t.pair.flights[putting.value].w] else []) + rest
    case _ => t.pair.primary.queue
  }

  /** The number of queued writes written locally. */
  function Flushed(t: Transfer): int {
    |t.arrived| - |Pending(t)|
  }

  ghost predicate PhaseOk(t: Transfer, s: KV) {
    && t.pair.primary.role == Primary && t.pair.backup.role == Backup
    && match t.phase
       case Copying(snapshot) => snapshot == s.data && t.pair.primary.syncing
       case Copied => t.pair.primary.syncing
       case Flushing(_, putting) =>
         && !t.pair.primary.syncing && t.pair.primary.queue == []
         && (putting.Some? ==> putting.value in t.pair.flights)
  }

  ghost predicate OrderOk(t: Transfer, s: KV) {
    && PhaseOk(t, s)
    && Flushed(t) >= 0 && Pending(t) == t.arrived[Flushed(t)..]
    && QueuedOf(t.written) == t.arrived[..Flushed(t)]
    && t.pair.primary.data == Overlay(s.data, Writes(t.written))
  }

  lemma DirectLands(t: Transfer, id: nat, t': Transfer, s: KV)
    requires OrderOk(t, s) && Moves(t, Turn(Finish(id)), t') && !IsFlush(t, id)
    ensures PhaseOk(t', s) && Pending(t') == Pending(t) && QueuedOf(t'.written) == QueuedOf(t.written)
  {
    assert t'.written[..|t.written|] == t.written;
    assert QueuedOf(t'.written) == QueuedOf(t.written) + [];
  }

  /** The flush's Put is the first pending write. */
  lemma FlushLands(t: Transfer, id: nat, t': Transfer, s: KV)
    requires OrderOk(t, s) && Moves(t, Turn(Finish(id)), t') && IsFlush(t, id)
    ensures PhaseOk(t', s) && Pending(t) == [t.pair.flights[id].w] + Pending(t')
    ensures QueuedOf(t'.written) == QueuedOf(t.written) + [t.pair.flights[id].w]
  {
    assert t'.written[..|t.written|] == t.written;
  }

  lemma DropFirst(arrived: seq<Write>, n: int, w: Write, rest: seq<Write>)
    requires 0 <= n <= |arrived| && arrived[n..] == [w] + rest
    ensures n < |arrived| && arrived[n] == w && arrived[n + 1..] == rest && arrived[..n + 1] == arrived[..n] + [w]
  {
    assert arrived[n..][0] == w && arrived[n..][1..] == rest;
  }

  /** A Put that finishes: its write lands, and is the first pending one if it was queued. */
  lemma FinishLands(t: Transfer, id: nat, t': Transfer, s: KV)
    requires OrderOk(t, s) && Moves(t, Turn(Finish(id)), t')
    ensures OrderOk(t', s)
    ensures t'.arrived == t.arrived && Flushed(t') == Flushed(t) + (if IsFlush(t, id) then 1 else 0)
    ensures IsFlush(t, id) ==> Flushed(t) < |t.arrived| && t.pair.flights[id].w == t.arrived[Flushed(t)]
  {
    var w := t.pair.flights[id].w;
    assert Writes(t'.written) == Writes(t.written) + [w];
    OverlayAppend(s.data, Writes(t.written), w);
    if IsFlush(t, id) {
      FlushLands(t, id, t', s);
      DropFirst(t.arrived, Flushed(t), w, Pending(t'));
    } else {
      DirectLands(t, id, t', s);
    }
  }

  lemma ArriveKeepsOrder(t: Transfer, w: Write, t': Transfer, s: KV)
    requires OrderOk(t, s) && Moves(t, Arrive(w), t')
    ensures OrderOk(t', s) && Flushed(t') == Flushed(t)
  {
    var n := Flushed(t);
    assert t'.arrived[n..] == t.arrived[n..] + [w] && t'.arrived[..n] == t.arrived[..n];
  }

  /** Any other move changes neither what has landed nor what has been flushed. */
  lemma OthersKeepOrder(t: Transfer, m: Move, t': Transfer, s: KV)
    requires OrderOk(t, s) && Moves(t, m, t') && !(m.Turn? && m.step.Finish?)
    ensures OrderOk(t', s) && Flushed(t') == Flushed(t) && t.arrived <= t'.arrived
    ensures t'.pair.primary.data == t.pair.primary.data
  {
    if m.Arrive? {
      ArriveKeepsOrder(t, m.w, t', s);
    } else {
      OthersKeepPending(t, m, t', s);
    }
  }

  lemma OthersKeepPending(t: Transfer, m: Move, t': Transfer, s: KV)
    requires OrderOk(t, s) && Moves(t, m, t') && !m.Arrive? && !(m.Turn? && m.step.Finish?)
    ensures PhaseOk(t', s) && Pending(t') == Pending(t) && t'.arrived == t.arrived && t'.written == t.written
    ensures t'.pair.primary.data == t.pair.primary.data
  {
    if m.Flush? {
      assert [t.phase.rest[0]] + t.phase.rest[1..] == t.phase.rest;
    }
  }

  lemma {:induction false} RunOrder(run: seq<Transfer>, moves: seq<Move>, s: KV, i: nat)
    requires IsTransfer(run, moves, s) && i < |run|
    ensures OrderOk(run[i], s)
  {
    if i == 0 {
      assert run[0].arrived[0..] == run[0].arrived;
    } else {
      RunOrder(run, moves, s, i - 1);
      var m := moves[i - 1];
      if m.Turn? && m.step.Finish? {
        FinishLands(run[i - 1], m.step.id, run[i], s);
      } else {
        OthersKeepOrder(run[i - 1], m, run[i], s);
      }
    }
  }

  // ----- agreement: what the backup has -----

  ghost predicate SameAt(a: Table, b: Table, key: string) {
    (key in a <==> key in b) && (key in a ==> a[key] == b[key])
  }

  /** A Put that was forwarded after the copy is between its forward and its local write. */
  ghost predicate Reached(t: Transfer, id: nat) {
    id in t.pair.flights && t.pair.flights[id].forwarded && id !in t.early
  }

  ghost predicate ReachedAt(t: Transfer, key: string) {
    exists id <- t.pair.flights :: Reached(t, id) && t.pair.flights[id].w.key == key
  }

  /** Before the copy the primary has the snapshot but for the missed keys. */
  ghost predicate BeforeCopy(t: Transfer, s: KV) {
    && t.early == {}
    && forall key :: if key in t.missed then key in t.pair.primary.data && t.pair.primary.data[key] == t.missed[key]
                     else SameAt(t.pair.primary.data, s.data, key)
  }

  /** The maps agree at the key, or the backup has the snapshot's value and the primary the missed one. */
  ghost predicate Settled(t: Transfer, s: KV, key: string) {
    if key in t.missed
    then key in t.pair.primary.data && t.pair.primary.data[key] == t.missed[key] &&
      SameAt(t.pair.backup.data, s.data, key)
    else Agree(t.pair, key)
  }

  ghost predicate AfterCopy(t: Transfer, s: KV) {
    && (forall id <- t.early ::
          id in t.pair.flights && t.pair.flights[id].forwarded &&
            SameAt(t.pair.backup.data, s.data, t.pair.flights[id].w.key))
    && (forall id <- t.pair.flights :: Reached(t, id) ==>
          var w := t.pair.flights[id].w;
          w.key !in t.missed && w.key in t.pair.backup.data && t.pair.backup.data[w.key] == w.value)
    && (forall key :: !ReachedAt(t, key) ==> Settled(t, s, key))
  }

  ghost predicate AgreementOk(t: Transfer, s: KV) {
    if t.phase.Copying? then BeforeCopy(t, s) else AfterCopy(t, s)
  }

  lemma CopyAgrees(t: Transfer, t': Transfer, s: KV)
    requires PhaseOk(t, s) && BeforeCopy(t, s) && Moves(t, Copy, t')
    ensures AfterCopy(t', s)
  {
    forall key
      ensures Settled(t', s, key)
    {
    }
  }

  lemma ForwardAgrees(t: Transfer, id: nat, t': Transfer, s: KV)
    requires PhaseOk(t, s) && AfterCopy(t, s) && OnePerKey(t.pair) && !t.phase.Copying?
    requires Moves(t, Turn(Forward(id)), t')
    ensures AfterCopy(t', s)
  {
    var w := t.pair.flights[id].w;
    assert Reached(t', id);
    forall key | !ReachedAt(t', key)
      ensures Settled(t', s, key)
    {
      assert key != w.key;
      assert forall f <- t.pair.flights :: Reached(t, f) ==>
        Reached(t', f) && t'.pair.flights[f].w == t.pair.flights[f].w;
      assert !ReachedAt(t, key);
    }
  }

  lemma FinishAgrees(t: Transfer, id: nat, t': Transfer, s: KV)
    requires PhaseOk(t, s) && AfterCopy(t, s) && OnePerKey(t.pair) && !t.phase.Copying?
    requires Moves(t, Turn(Finish(id)), t')
    ensures AfterCopy(t', s)
  {
    var w := t.pair.flights[id].w;
    assert id in t.early || Reached(t, id);
    forall key | !ReachedAt(t', key)
      ensures Settled(t', s, key)
    {
      if key != w.key {
        assert forall f <- t.pair.flights :: f != id && Reached(t, f) ==>
          Reached(t', f) && t'.pair.flights[f] == t.pair.flights[f];
        assert !ReachedAt(t, key);
      }
    }
  }

  /** A new flight is not forwarded, and the data stays. */
  lemma BeginAgrees(t: Transfer, m: Move, t': Transfer, s: KV)
    requires PhaseOk(t, s) && AfterCopy(t, s) && !t.phase.Copying? && Moves(t, m, t')
    requires m.Flush? || (m.Turn? && m.step.Begin?) || m.Arrive? || m.Done?
    ensures AfterCopy(t', s)
  {
    assert forall f <- t.pair.flights :: f in t'.pair.flights && t'.pair.flights[f] == t.pair.flights[f];
    forall key | !ReachedAt(t', key)
      ensures Settled(t', s, key)
    {
      assert forall f <- t.pair.flights :: Reached(t, f) ==> Reached(t', f);
      assert !ReachedAt(t, key);
    }
  }

  lemma MoveAgrees(t: Transfer, m: Move, t': Transfer, s: KV)
    requires PhaseOk(t, s) && AgreementOk(t, s) && OnePerKey(t.pair) && Moves(t, m, t')
    ensures AgreementOk(t', s)
  {
    if t.phase.Copying? {
      if m == Copy {
        CopyAgrees(t, t', s);
      }
    } else {
      match m {
        case Turn(Forward(id)) => ForwardAgrees(t, id, t', s);
        case Turn(Finish(id)) => FinishAgrees(t, id, t', s);
        case _ => BeginAgrees(t, m, t', s);
      }
    }
  }

  /** At most one Put per key is in flight, of the flush or not, in every state before `i`. */
  ghost predicate Alone(run: seq<Transfer>, i: nat) {
    forall j :: 0 <= j < i && j < |run| ==> OnePerKey(run[j].pair)
  }

  lemma {:induction false} RunAgrees(run: seq<Transfer>, moves: seq<Move>, s: KV, i: nat)
    requires IsTransfer(run, moves, s) && i < |run| && Alone(run, i)
    ensures AgreementOk(run[i], s)
  {
    if i > 0 {
      RunAgrees(run, moves, s, i - 1);
      RunOrder(run, moves, s, i - 1);
      MoveAgrees(run[i - 1], moves[i - 1], run[i], s);
    }
  }

  /** With no Put in flight at the snapshot nothing is missed. */
  ghost predicate NoneMissed(t: Transfer) {
    t.early == {} && t.missed == map[] && (!t.phase.Flushing? ==> t.pair.flights == map[])
  }

  lemma {:induction false} RunMissesNone(run: seq<Transfer>, moves: seq<Move>, s: KV, i: nat)
    requires IsTransfer(run, moves, s) && i < |run| && run[0].pair.flights == map[]
    ensures NoneMissed(run[i])
  {
    if i > 0 {
      RunMissesNone(run, moves, s, i - 1);
      RunOrder(run, moves, s, i - 1);
      MoveMissesNone(run[i - 1], moves[i - 1], run[i], s);
    }
  }

  lemma MoveMissesNone(t: Transfer, m: Move, t': Transfer, s: KV)
    requires PhaseOk(t, s) && NoneMissed(t) && Moves(t, m, t')
    ensures NoneMissed(t')
  {
  }

  // ----- main results -----

  /** From the copy on, at every key with no Put in flight the maps agree, unless a Put in flight
      at the snapshot had its forward before the copy, or none: they agree all the same exactly
      when the snapshot had the value it wrote. One Put per key is in flight at a time. */
  lemma TransferAgrees(run: seq<Transfer>, moves: seq<Move>, s: KV, i: nat, key: string)
    requires IsTransfer(run, moves, s) && i < |run| && Alone(run, i)
    requires !run[i].phase.Copying? && !InFlight(run[i].pair, key)
    ensures Agree(run[i].pair, key) <==>
      (key in run[i].missed ==> key in s.data && s.data[key] == run[i].missed[key])
    ensures run[0].pair.flights == map[] ==> Agree(run[i].pair, key)
  {
    RunAgrees(run, moves, s, i);
    assert !ReachedAt(run[i], key);
    assert Settled(run[i], s, key);
    if run[0].pair.flights == map[] {
      RunMissesNone(run, moves, s, i);
    }
  }

  lemma SameEverywhere(a: Table, b: Table)
    requires forall key :: SameAt(a, b, key)
    ensures a == b
  {
    forall key
      ensures key in a <==> key in b
    {
      assert SameAt(a, b, key);
    }
    forall key | key in a
      ensures a[key] == b[key]
    {
      assert SameAt(a, b, key);
    }
  }

  /** Nothing is queued or in flight any more. */
  ghost predicate Over(t: Transfer) {
    t.phase == Flushing([], None) && t.pair.flights == map[]
  }

  /** When all is over, both maps are the snapshot overlaid with the local writes, which are the
      queued writes in order of arrival with the other Puts between them. */
  lemma TransferEndsEqual(run: seq<Transfer>, moves: seq<Move>, s: KV, i: nat)
    requires IsTransfer(run, moves, s) && i < |run| && Alone(run, i) && run[0].pair.flights == map[] && Over(run[i])
    ensures run[i].pair.primary.data == run[i].pair.backup.data
    ensures run[i].pair.primary.data == Overlay(s.data, Writes(run[i].written))
    ensures QueuedOf(run[i].written) == run[i].arrived
    ensures run[i].pair.primary.queue == [] && !run[i].pair.primary.syncing
  {
    RunOrder(run, moves, s, i);
    var p := run[i].pair;
    forall key
      ensures SameAt(p.primary.data, p.backup.data, key)
    {
      TransferAgrees(run, moves, s, i, key);
    }
    SameEverywhere(p.primary.data, p.backup.data);
    assert run[i].arrived[..|run[i].arrived|] == run[i].arrived;
  }

  lemma {:induction false} AllQueued(written: seq<Landed>)
    requires forall d <- written :: d.queued
    ensures QueuedOf(written) == Writes(written)
  {
    if written != [] {
      var front := written[..|written| - 1];
      AllQueued(front);
      assert Writes(written) == Writes(front) + [written[|written| - 1].w];
    }
  }

  /** With no other Put than the queued ones, both are the snapshot overlaid with these. */
  lemma QuietTransferEndsEqual(run: seq<Transfer>, moves: seq<Move>, s: KV, i: nat)
    requires IsTransfer(run, moves, s) && i < |run| && Alone(run, i) && run[0].pair.flights == map[] && Over(run[i])
    requires forall d <- run[i].written :: d.queued
    ensures run[i].pair.primary.data == run[i].pair.backup.data == Overlay(s.data, run[i].arrived)
  {
    TransferEndsEqual(run, moves, s, i);
    AllQueued(run[i].written);
  }

  // ----- a transfer that fails -----

  lemma MoveOfRun(run: seq<Transfer>, moves: seq<Move>, s: KV, k: nat)
    requires IsTransfer(run, moves, s) && k < |moves|
    ensures Moves(run[k], moves[k], run[k + 1])
  {
  }

  /** Before the flush nothing queued is written, and what had arrived first stays on record. */
  ghost predicate OnRecord(first: seq<Write>, t: Transfer) {
    first <= t.arrived && (!t.phase.Flushing? ==> Flushed(t) == 0)
  }

  lemma MoveOnRecord(t: Transfer, m: Move, t': Transfer, s: KV, first: seq<Write>)
    requires OrderOk(t, s) && Moves(t, m, t') && OnRecord(first, t)
    ensures OnRecord(first, t')
  {
    if m.Turn? && m.step.Finish? {
      FinishLands(t, m.step.id, t', s);
    } else {
      OthersKeepOrder(t, m, t', s);
    }
  }

  lemma NextOnRecord(run: seq<Transfer>, moves: seq<Move>, s: KV, i: nat, first: seq<Write>)
    requires IsTransfer(run, moves, s) && i < |moves| && OnRecord(first, run[i])
    ensures OnRecord(first, run[i + 1])
  {
    RunOrder(run, moves, s, i);
    MoveOfRun(run, moves, s, i);
    MoveOnRecord(run[i], moves[i], run[i + 1], s, first);
  }

  lemma {:induction false} RunOnRecord(run: seq<Transfer>, moves: seq<Move>, s: KV, i: nat)
    requires IsTransfer(run, moves, s) && i < |run|
    ensures OnRecord(run[0].arrived, run[i])
  {
    if i > 0 {
      RunOnRecord(run, moves, s, i - 1);
      NextOnRecord(run, moves, s, i - 1, run[0].arrived);
    }
  }

  /** A transfer that fails before its flush, whether or not its copy arrived, leaves every write it
      queued in the queue, and nothing of them written; the next transfer to end puts them all, in
      order and before the ones it queues itself. */
  lemma FailedTransferLosesNone(run: seq<Transfer>, moves: seq<Move>, s: KV, i: nat,
                                run': seq<Transfer>, moves': seq<Move>, s': KV, j: nat)
    requires IsTransfer(run, moves, s) && i < |run| && !run[i].phase.Flushing?
    requires IsTransfer(run', moves', s') && s'.queue == EndTransfer(run[i].pair.primary, false).0.queue
    requires j < |run'| && run'[j].phase.Flushing? && Pending(run'[j]) == []
    ensures
      var (after, toPut) := EndTransfer(run[i].pair.primary, false);
      && after.queue == run[i].arrived && toPut == [] && !after.syncing
      && after.data == run[i].pair.primary.data && QueuedOf(run[i].written) == []
    ensures run[i].arrived <= QueuedOf(run'[j].written) == run'[j].arrived
  {
    RunOrder(run, moves, s, i);
    RunOnRecord(run, moves, s, i);
    RunOrder(run', moves', s', j);
    RunOnRecord(run', moves', s', j);
    assert run'[j].arrived[..|run'[j].arrived|] == run'[j].arrived;
  }

  /** The move is the local write of a Put that was not queued. */
  ghost predicate LandsDirect(t: Transfer, m: Move, key: string) {
    && m.Turn? && m.step.Finish? && m.step.id in t.pair.flights
    && !IsFlush(t, m.step.id) && t.pair.flights[m.step.id].w.key == key
  }

  ghost predicate Between(data: Table, t: Transfer, from: int, key: string) {
    && 0 <= from <= Flushed(t) <= |t.arrived|
    && SameAt(t.pair.primary.data, Overlay(data, t.arrived[from..Flushed(t)]), key)
  }

  lemma OneMoreLands(data: Table, before: Table, writes: seq<Write>, from: int, n: int, key: string)
    requires 0 <= from <= n < |writes| && SameAt(before, Overlay(data, writes[from..n]), key)
    ensures SameAt(before[writes[n].key := writes[n].value], Overlay(data, writes[from..n + 1]), key)
  {
    assert writes[from..n + 1] == writes[from..n] + [writes[n]];
    OverlayAppend(data, writes[from..n], writes[n]);
  }

  lemma FlushedStep(t: Transfer, m: Move, t': Transfer, s: KV, data: Table, from: int, key: string)
    requires OrderOk(t, s) && Moves(t, m, t') && !LandsDirect(t, m, key) && Between(data, t, from, key)
    ensures Between(data, t', from, key)
  {
    if m.Turn? && m.step.Finish? {
      FinishLands(t, m.step.id, t', s);
      if IsFlush(t, m.step.id) {
        OneMoreLands(data, t.pair.primary.data, t.arrived, from, Flushed(t), key);
      }
    } else {
      OthersKeepOrder(t, m, t', s);
      assert t'.arrived[from..Flushed(t')] == t.arrived[from..Flushed(t)];
    }
  }

  /** Between two states with no such write of the key, the flush alone has written it. */
  lemma {:induction false} FlushedBetween(run: seq<Transfer>, moves: seq<Move>, s: KV, i: nat, j: nat, key: string)
    requires IsTransfer(run, moves, s) && i <= j < |run|
    requires forall m :: i <= m < j ==> !LandsDirect(run[m], moves[m], key)
    ensures Between(run[i].pair.primary.data, run[j], Flushed(run[i]), key)
    decreases j
  {
    var k := if i < j then j - 1 else j;
    RunOrder(run, moves, s, k);
    if i < j {
      FlushedBetween(run, moves, s, i, k, key);
      MoveOfRun(run, moves, s, k);
      FlushedStep(run[k], moves[k], run[j], s, run[i].pair.primary.data, Flushed(run[i]), key);
    }
  }

  /** Once the flush is over the primary answers the last write of the key that was still pending
      at `i` or queued after, or, if there is none, what it answered at `i`. */
  lemma ReadsLastPending(run: seq<Transfer>, moves: seq<Move>, s: KV, i: nat, j: nat, key: string)
    requires IsTransfer(run, moves, s) && i <= j < |run| && run[j].phase.Flushing? && Pending(run[j]) == []
    requires forall m :: i <= m < j ==> !LandsDirect(run[m], moves[m], key)
    ensures 0 <= Flushed(run[i]) <= |run[j].arrived|
    ensures
      var writes := run[j].arrived;
      forall k :: Flushed(run[i]) <= k < |writes| && writes[k].key == key && Untouched(writes, key, k + 1) ==>
        Read(run[j].pair.primary, key) == Some(writes[k].value)
    ensures Untouched(run[j].arrived, key, Flushed(run[i])) ==>
      Read(run[j].pair.primary, key) == Read(run[i].pair.primary, key)
  {
    FlushedBetween(run, moves, s, i, j, key);
    RunOrder(run, moves, s, i);
    RunOrder(run, moves, s, j);
    var from, writes := Flushed(run[i]), run[j].arrived;
    assert writes[from..|writes|] == writes[from..];
    forall k | from <= k < |writes| && writes[k].key == key && Untouched(writes, key, k + 1)
      ensures Read(run[j].pair.primary, key) == Some(writes[k].value)
    {
      assert writes[from..][k - from] == writes[k];
      OverlayTakesLast(run[i].pair.primary.data, writes[from..], k - from);
    }
    if Untouched(writes, key, from) {
      OverlayKeeps(run[i].pair.primary.data, writes[from..], key);
    }
  }

  lemma {:induction false} LastOrNone(writes: seq<Write>, key: string, from: nat) returns (k: nat)
    requires from <= |writes|
    ensures Untouched(writes, key, from) ||
      (from <= k < |writes| && writes[k].key == key && Untouched(writes, key, k + 1))
    decreases |writes| - from
  {
    k := from;
    if from < |writes| {
      k := LastOrNone(writes, key, from + 1);
      if Untouched(writes, key, from + 1) {
        k := from;
      }
    }
  }

  /** A Put that lands beside the flush, the last one of its key that was not queued, is what is
      read after the flush if and only if no queued write of the key was pending when it landed or
      came later, or the last of these wrote the same value. */
  lemma LastDirectKept(run: seq<Transfer>, moves: seq<Move>, s: KV, i: nat, j: nat, w: Write)
    requires IsTransfer(run, moves, s) && i < j < |run| && run[j].phase.Flushing? && Pending(run[j]) == []
    requires LandsDirect(run[i], moves[i], w.key) && run[i].pair.flights[moves[i].step.id].w == w
    requires forall m :: i < m < j ==> !LandsDirect(run[m], moves[m], w.key)
    ensures 0 <= Flushed(run[i]) <= |run[j].arrived|
    ensures
      var writes := run[j].arrived;
      Read(run[j].pair.primary, w.key) == Some(w.value) <==>
        forall k :: Flushed(run[i]) <= k < |writes| && writes[k].key == w.key && Untouched(writes, w.key, k + 1) ==>
          writes[k].value == w.value
  {
    RunOrder(run, moves, s, i);
    FinishLands(run[i], moves[i].step.id, run[i + 1], s);
    ReadsLastPending(run, moves, s, i + 1, j, w.key);
    assert Read(run[i + 1].pair.primary, w.key) == Some(w.value);
    var k := LastOrNone(run[j].arrived, w.key, Flushed(run[i]));
  }

  /** A backup that a later view makes primary answers, for a key with no Put in flight, what the
      primary answers, from the copy on. */
  lemma SyncedReadsSame(run: seq<Transfer>, moves: seq<Move>, s: KV, i: nat, key: string, v: View)
    requires IsTransfer(run, moves, s) && i < |run| && Alone(run, i) && run[0].pair.flights == map[]
    requires !run[i].phase.Copying? && !InFlight(run[i].pair, key)
    requires v.number != run[i].pair.backup.view.number && v.primary == run[i].pair.backup.me
    ensures Read(Observe(run[i].pair.backup, v).0, key) == Read(run[i].pair.primary, key)
  {
    TransferAgrees(run, moves, s, i, key);
    RunOrder(run, moves, s, i);
  }
}
