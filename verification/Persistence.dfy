/** The saved state of a Paxos server: its log, its promise and its accepted slots. */
module Persistence {
  import opened Types

  /** What the file holds: the log, the promised ballot, and the ballot accepted per index. */
  datatype Saved = Saved(log: seq<Entry>, npromised: Ballot, accepted: map<nat, Ballot>)

  /** Memory, file, and the answers the file system will give to the coming saves
      (true: that save fails; past the end every save succeeds). */
  datatype Durable = Durable(mem: Saved, file: Option<Saved>, faults: seq<bool>)

  /** The four mutators. */
  datatype Mutation =
    | Append(entry: Entry)
    | Update(index: nat, entry: Entry)
    | Promise(ballot: Ballot)
    | Accept(index: nat, ballot: Ballot)

  function Fresh(id: nat): Saved {
    Saved([], Ballot(0, id), map[])
  }

  /** What a starting server has in memory. */
  function Loaded(file: Option<Saved>, id: nat): Saved {
    if file.Some? then file.value else Fresh(id)
  }

  function Blanks(k: nat): (blanks: seq<Entry>)
    ensures |blanks| == k && forall i :: 0 <= i < k ==> blanks[i] == BLANK
  {
    seq(k, i => BLANK)
  }

  /** A log with `entry` written at `index`, grown with blank entries where it is too short. */
  function Written(log: seq<Entry>, index: nat, entry: Entry): (r: seq<Entry>)
    ensures |r| == (if index < |log| then |log| else index + 1)
    ensures r[index] == entry
    ensures forall i :: 0 <= i < |r| && i != index ==> r[i] == (if i < |log| then log[i] else BLANK)
  {
    if index < |log| then log[index := entry] else log + Blanks(index - |log|) + [entry]
  }

  function Mutate(s: Saved, m: Mutation): Saved {
    match m
    case Append(entry) => s.(log := s.log + [entry])
    case Update(index, entry) => s.(log := Written(s.log, index, entry))
    case Promise(ballot) => s.(npromised := ballot)
    case Accept(index, ballot) => s.(accepted := s.accepted[index := ballot])
  }

  /** One save: it replaces the file by the memory state as a whole, or fails and leaves it. */
  function Save(d: Durable): (r: (Durable, bool))
    ensures r.0.mem == d.mem
    ensures r.0.file == if r.1 then Some(d.mem) else d.file
  {
    var rest := if d.faults == [] then [] else d.faults[1..];
    if d.faults != [] && d.faults[0] then (d.(faults := rest), false)
    else (d.(file := Some(d.mem), faults := rest), true)
  }

  /** A mutator changes memory first and saves second, so a failed save leaves memory changed. */
  function Do(d: Durable, m: Mutation): (r: (Durable, bool))
    ensures r.0.mem == Mutate(d.mem, m)
    ensures r.0.file == if r.1 then Some(r.0.mem) else d.file
    ensures d.faults == [] ==> r.1 && r.0.faults == []
  {
    Save(d.(mem := Mutate(d.mem, m)))
  }

  /** The promise has reached `b` in memory and in the file. */
  ghost predicate Pledged(d: Durable, b: Ballot) {
    AtLeast(d.mem.npromised, b) && d.file.Some? && AtLeast(d.file.value.npromised, b)
  }

  /** The accepted entries among the first `n` slots, in index order. */
  function ReportedUpTo(s: Saved, n: nat): (r: seq<Entry>)
    requires n <= |s.log|
    ensures forall i :: 0 <= i < n && i in s.accepted ==> s.log[i] in r
    ensures forall e :: e in r ==> exists i :: 0 <= i < n && i in s.accepted && s.log[i] == e
  {
    if n == 0 then []
    else ReportedUpTo(s, n - 1) + (if n - 1 in s.accepted then [s.log[n - 1]] else [])
  }

  /** What a promise carries: the entries of the slots with a recorded accepted ballot. */
  function Reported(s: Saved): (r: seq<Entry>)
    ensures forall e :: e in r <==> exists i :: 0 <= i < |s.log| && i in s.accepted && s.log[i] == e
  {
    ReportedUpTo(s, |s.log|)
  }

  class PersistentState {
    var log: seq<Entry>
    var npromised: Ballot
    var highestAcceptedBallot: map<nat, Ballot>
    var file: Option<Saved>
    var faults: seq<bool>

    ghost function State(): Durable
      reads this
    {
      Durable(Saved(log, npromised, highestAcceptedBallot), file, faults)
    }

    /** Starts from the file when there is one, and fresh otherwise. */
    constructor (id: nat, file: Option<Saved>, faults: seq<bool>)
      ensures State() == Durable(Loaded(file, id), file, faults)
    {
      this.file, this.faults := file, faults;
      log, npromised, highestAcceptedBallot := [], Ballot(0, id), map[];
      if file.Some? {
        log := file.value.log;
        npromised := file.value.npromised;
        highestAcceptedBallot := file.value.accepted;
      }
    }

    method SaveState() returns (ok: bool)
      modifies this`file, this`faults
      ensures (State(), ok) == Save(old(State()))
    {
      ok := faults == [] || !faults[0];
      if faults != [] {
        faults := faults[1..];
      }
      if ok {
        file := Some(Saved(log, npromised, highestAcceptedBallot));
      }
    }

    method AppendLog(entry: Entry) returns (ok: bool)
      modifies this
      ensures (State(), ok) == Do(old(State()), Append(entry))
    {
      log := log + [entry];
      ok := SaveState();
    }

    method UpdateLog(index: nat, entry: Entry) returns (ok: bool)
      modifies this
      ensures (State(), ok) == Do(old(State()), Update(index, entry))
    {
      if index < |log| {
        log := log[index := entry];
      } else {
        while |log| <= index
          invariant |old(log)| <= |log| <= index + 1
          invariant log == old(log) + Blanks(|log| - |old(log)|)
          invariant npromised == old(npromised) && highestAcceptedBallot == old(highestAcceptedBallot)
          invariant file == old(file) && faults == old(faults)
        {
          log := log + [BLANK];
        }
        log := log[index := entry];
      }
      assert log == Written(old(log), index, entry);
      ok := SaveState();
    }

    method SetNpromised(ballot: Ballot) returns (ok: bool)
      modifies this
      ensures (State(), ok) == Do(old(State()), Promise(ballot))
    {
      npromised := ballot;
      ok := SaveState();
    }

    method SetHighestAcceptedBallot(index: nat, ballot: Ballot) returns (ok: bool)
      modifies this
      ensures (State(), ok) == Do(old(State()), Accept(index, ballot))
    {
      highestAcceptedBallot := highestAcceptedBallot[index := ballot];
      ok := SaveState();
    }

    method GetAllAcceptedEntries() returns (entries: seq<Entry>)
      ensures entries == Reported(State().mem)
    {
      entries := [];
      for i := 0 to |log|
        invariant entries == ReportedUpTo(State().mem, i)
      {
        if i in highestAcceptedBallot {
          entries := entries + [log[i]];
        }
      }
    }
  }
}
