/** Ballots, log entries and the key-value state machine of the Paxos servers. */
module Types {

  datatype Option<+T> = None | Some(value: T)

  /** A ballot is a term and the identity of the server that chose it; terms decide first. */
  datatype Ballot = Ballot(term: nat, server: nat)

  /** -1, 0 or 1 as `a` is below, equal to or above `b`. */
  function Compare(a: Ballot, b: Ballot): (c: int)
    ensures c == 0 <==> a == b
  {
    if a.term < b.term then -1
    else if a.term > b.term then 1
    else if a.server < b.server then -1
    else if a.server > b.server then 1
    else 0
  }

  predicate Above(a: Ballot, b: Ballot) {
    Compare(a, b) > 0
  }

  predicate AtLeast(a: Ballot, b: Ballot) {
    Compare(a, b) >= 0
  }

  /** Comparing orders ballots totally, terms first. */
  lemma CompareIsTotalOrder(a: Ballot, b: Ballot, c: Ballot)
    ensures Compare(a, b) == -Compare(b, a)
    ensures AtLeast(a, b) && AtLeast(b, c) ==> AtLeast(a, c)
    ensures Above(a, b) <==> a.term > b.term || (a.term == b.term && a.server > b.server)
  {
  }

  /** `Unset` is the empty operation of an entry nobody wrote. */
  datatype Operation = Unset | Put | Delete | Get | NoOp

  datatype Entry = Entry(index: nat, ballot: Ballot, op: Operation, key: string, value: string)

  /** The zero entry that fills holes of a log; it claims index 0 and ballot (0,0). */
  const BLANK: Entry := Entry(0, Ballot(0, 0), Unset, "", "")

  type Table = map<string, string>

  /** The table after one entry. */
  function Applied(table: Table, e: Entry): Table {
    match e.op
    case Put => table[e.key := e.value]
    case Delete => table - {e.key}
    case _ => table
  }

  /** What applying an entry answers. */
  function ApplyAnswer(table: Table, e: Entry): string {
    match e.op
    case Put => e.value
    case Get => if e.key in table then table[e.key] else ""
    case _ => ""
  }

  /** The table after a whole list of entries, first to last. */
  function Replay(table: Table, entries: seq<Entry>): Table
    decreases |entries|
  {
    if entries == [] then table else Replay(Applied(table, entries[0]), entries[1..])
  }

  lemma {:induction false} ReplayAppend(table: Table, front: seq<Entry>, back: seq<Entry>)
    ensures Replay(table, front + back) == Replay(Replay(table, front), back)
    decreases |front|
  {
    if front == [] {
      assert front + back == back;
    } else {
      assert (front + back)[1..] == front[1..] + back;
      ReplayAppend(Applied(table, front[0]), front[1..], back);
    }
  }

  /** The entry puts or deletes the key. */
  predicate Names(e: Entry, key: string) {
    (e.op == Put || e.op == Delete) && e.key == key
  }

  ghost predicate UnnamedFrom(entries: seq<Entry>, key: string, from: nat) {
    forall j :: from <= j < |entries| ==> !Names(entries[j], key)
  }

  /** Entry `i` is the last to put or delete the key. */
  ghost predicate NamedLast(entries: seq<Entry>, i: nat, key: string) {
    i < |entries| && Names(entries[i], key) && UnnamedFrom(entries, key, i + 1)
  }

  /** A key that no entry puts or deletes keeps its value, or its absence. */
  lemma {:induction false} ReplayKeeps(table: Table, entries: seq<Entry>, key: string)
    requires UnnamedFrom(entries, key, 0)
    ensures key in Replay(table, entries) <==> key in table
    ensures key in table ==> Replay(table, entries)[key] == table[key]
    decreases |entries|
  {
    if entries != [] {
      assert !Names(entries[0], key);
      ReplayKeeps(Applied(table, entries[0]), entries[1..], key);
    }
  }

  /** A key whose last such entry is a Put has that value; one whose last is a Delete is gone. */
  lemma {:induction false} ReplayTakesLast(table: Table, entries: seq<Entry>, i: nat, key: string)
    requires NamedLast(entries, i, key)
    ensures entries[i].op == Put ==> key in Replay(table, entries) && Replay(table, entries)[key] == entries[i].value
    ensures entries[i].op == Delete ==> key !in Replay(table, entries)
    decreases |entries|
  {
    var table' := Applied(table, entries[0]);
    if i == 0 {
      ReplayKeeps(table', entries[1..], key);
    } else {
      ReplayTakesLast(table', entries[1..], i - 1, key);
    }
  }

  /** What applying the `k`-th entry of a replay answers: a Put its value, a Get the value of the
      last Put of its key if no Delete came after, and otherwise nothing. */
  lemma AnswerIsCurrent(entries: seq<Entry>, k: nat)
    requires k < |entries|
    ensures
      var e, answer := entries[k], ApplyAnswer(Replay(map[], entries[..k]), entries[k]);
      && (e.op == Put ==> answer == e.value)
      && (e.op == Delete || e.op == NoOp || e.op == Unset ==> answer == "")
      && (e.op == Get && UnnamedFrom(entries[..k], e.key, 0) ==> answer == "")
      && (forall i: nat :: e.op == Get && NamedLast(entries[..k], i, e.key) ==>
            answer == if entries[i].op == Put then entries[i].value else "")
  {
    var e := entries[k];
    if UnnamedFrom(entries[..k], e.key, 0) {
      ReplayKeeps(map[], entries[..k], e.key);
    }
    forall i: nat | NamedLast(entries[..k], i, e.key)
      ensures e.op == Get ==>
        ApplyAnswer(Replay(map[], entries[..k]), e) == if entries[i].op == Put then entries[i].value else ""
    {
      ReplayTakesLast(map[], entries[..k], i, e.key);
    }
  }

  /** The in-memory store that a learner applies entries to. */
  class KVStore {
    var store: Table

    constructor ()
      ensures store == map[]
    {
      store := map[];
    }

    method Put(key: string, value: string)
      modifies this
      ensures store == old(store)[key := value]
    {
      store := store[key := value];
    }

    method Delete(key: string)
      modifies this
      ensures store == old(store) - {key}
    {
      store := store - {key};
    }

    method Get(key: string) returns (value: string, exists_: bool)
      ensures exists_ <==> key in store
      ensures value == if key in store then store[key] else ""
    {
      exists_ := key in store;
      value := if exists_ then store[key] else "";
    }

    method Apply(e: Entry) returns (answer: string)
      modifies this
      ensures store == Applied(old(store), e)
      ensures answer == ApplyAnswer(old(store), e)
    {
      answer := "";
      match e.op {
        case Put =>
          Put(e.key, e.value);
          answer := e.value;
        case Delete =>
          Delete(e.key);
        case Get =>
          var found;
          answer, found := Get(e.key);
        case NoOp =>
        case Unset =>
      }
    }
  }
}
