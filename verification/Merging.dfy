/** What merging entries into a log yields: promises into a candidate's log, and a leader's
    missing slots into a follower's. */
module Merging {
  import opened Types
  import opened Persistence
  import opened Quorums
  import opened Handlers

  /** A blank entry, or one that was proposed. */
  ghost predicate Supplied(e: Entry, proposed: set<Entry>) {
    e == BLANK || e in proposed
  }

  /** The entry a log has at `i`, blank past its end. */
  function Own(log: seq<Entry>, i: nat): Entry {
    if i < |log| then log[i] else BLANK
  }

  /** `r` is `log` merged with `entries`: as long as needed, and each slot holds, among its own
      entry and those offered for it, one with the highest ballot. */
  ghost predicate Merges(log: seq<Entry>, entries: seq<Entry>, r: seq<Entry>) {
    && |log| <= |r|
    && (forall e <- entries :: e.index < |r|)
    && (|r| == |log| || exists e <- entries :: e.index + 1 == |r|)
    && (forall i :: 0 <= i < |r| ==>
          (r[i] == Own(log, i) || (r[i] in entries && r[i].index == i)) && AtLeast(r[i].ballot, Own(log, i).ballot))
    && (forall e <- entries :: AtLeast(r[e.index].ballot, e.ballot))
  }

  /** The rule both adoption and transfer follow, on the log alone. */
  function MergeOne(log: seq<Entry>, e: Entry): seq<Entry> {
    if |log| <= e.index || Above(e.ballot, log[e.index].ballot) then Written(log, e.index, e) else log
  }

  function MergeAll(log: seq<Entry>, entries: seq<Entry>): seq<Entry>
    decreases |entries|
  {
    if entries == [] then log else MergeAll(MergeOne(log, entries[0]), entries[1..])
  }

  /** Whatever saves fail, adoption merges the entries into the log and leaves the rest. */
  lemma {:induction false} AdoptIsMerge(d: Durable, entries: seq<Entry>)
    ensures Adopt(d, entries).mem == d.mem.(log := MergeAll(d.mem.log, entries))
    decreases |entries|
  {
    if entries != [] {
      AdoptIsMerge(AdoptOne(d, entries[0]), entries[1..]);
    }
  }

  /** A transfer that succeeds merges by the same rule. */
  lemma {:induction false} InstallIsMerge(d: Durable, entries: seq<Entry>)
    ensures d.faults == [] ==> Install(d, entries).1
    ensures Install(d, entries).1 ==> Install(d, entries).0.mem.log == MergeAll(d.mem.log, entries)
    decreases |entries|
  {
    if entries != [] {
      InstallIsMerge(InstallOne(d, entries[0]).0, entries[1..]);
    }
  }

  lemma MergeOneMerges(log: seq<Entry>, e: Entry)
    ensures Merges(log, [e], MergeOne(log, e))
  {
  }

  lemma MergesThen(log: seq<Entry>, e: Entry, rest: seq<Entry>, mid: seq<Entry>, r: seq<Entry>)
    requires Merges(log, [e], mid) && Merges(mid, rest, r)
    ensures Merges(log, [e] + rest, r)
  {
    assert forall x :: x in [e] + rest <==> x == e || x in rest;
    forall i | 0 <= i < |r|
      ensures (r[i] == Own(log, i) || (r[i] in [e] + rest && r[i].index == i)) &&
        AtLeast(r[i].ballot, Own(log, i).ballot)
    {
      assert AtLeast(Own(mid, i).ballot, Own(log, i).ballot);
      if i < |mid| {
        assert mid[i] == Own(log, i) || (mid[i] in [e] && mid[i].index == i);
      }
    }
    if |r| == |mid| && |mid| != |log| {
      assert e in [e] + rest;
    }
    assert e in [e];
  }

  lemma {:induction false} MergeAllMerges(log: seq<Entry>, entries: seq<Entry>)
    ensures Merges(log, entries, MergeAll(log, entries))
    decreases |entries|
  {
    if entries != [] {
      var e, rest := entries[0], entries[1..];
      assert entries == [e] + rest;
      MergeOneMerges(log, e);
      MergeAllMerges(MergeOne(log, e), rest);
      MergesThen(log, e, rest, MergeOne(log, e), MergeAll(MergeOne(log, e), rest));
    }
  }

  /** For any entries and any failing saves, the candidate's log is the merge. */
  lemma AdoptMerges(d: Durable, entries: seq<Entry>)
    ensures Merges(d.mem.log, entries, Adopt(d, entries).mem.log)
  {
    AdoptIsMerge(d, entries);
    MergeAllMerges(d.mem.log, entries);
  }

  /** Equal index and ballot mean equal entry, in the log and among the entries; an entry that
      is not blank was written under some term. Every election of FailoverSafety.dfy has this. */
  ghost predicate Consistent(log: seq<Entry>, entries: seq<Entry>) {
    && (forall e <- entries :: e == BLANK || e.ballot.term >= 1)
    && (forall e <- entries :: e.index < |log| && log[e.index].ballot == e.ballot ==> log[e.index] == e)
    && (forall a <- entries, b <- entries :: a.index == b.index && a.ballot == b.ballot ==> a == b)
  }

  ghost predicate SameElements(a: seq<Entry>, b: seq<Entry>) {
    forall e :: e in a <==> e in b
  }

  /** A merge is determined by the entries as a set. */
  lemma MergeIsUnique(log: seq<Entry>, entries: seq<Entry>, entries': seq<Entry>, r: seq<Entry>, r': seq<Entry>)
    requires Consistent(log, entries) && SameElements(entries, entries')
    requires Merges(log, entries, r) && Merges(log, entries', r')
    ensures r == r'
  {
    assert |r| == |r'|;
    forall i | 0 <= i < |r|
      ensures r[i] == r'[i]
    {
      assert AtLeast(r'[i].ballot, r[i].ballot) && AtLeast(r[i].ballot, r'[i].ballot);
    }
  }

  lemma MergeIsUniqueForAll(log: seq<Entry>, entries: seq<Entry>, entries': seq<Entry>)
    requires Consistent(log, entries) && SameElements(entries, entries')
    ensures MergeAll(log, entries) == MergeAll(log, entries') && Merges(log, entries, MergeAll(log, entries))
  {
    MergeAllMerges(log, entries);
    MergeAllMerges(log, entries');
    MergeIsUnique(log, entries, entries', MergeAll(log, entries), MergeAll(log, entries'));
  }

  lemma SameCarried(answers: seq<PrepareReply>, answers': seq<PrepareReply>)
    requires multiset(answers) == multiset(answers')
    ensures SameElements(Carried(answers), Carried(answers'))
  {
    forall e
      ensures e in Carried(answers) <==> e in Carried(answers')
    {
      CarriedElements(answers, e);
      CarriedElements(answers', e);
      assert forall a :: a in answers <==> a in multiset(answers);
      assert forall a :: a in answers' <==> a in multiset(answers');
    }
  }

  lemma {:induction false} CarriedElements(answers: seq<PrepareReply>, e: Entry)
    ensures e in Carried(answers) <==> exists a <- answers :: a.Promised? && e in a.entries
  {
    if answers != [] {
      CarriedElements(answers[1..], e);
    }
  }

  lemma {:induction false} VotesAppend(front: seq<PrepareReply>, back: seq<PrepareReply>)
    ensures Votes(front + back) == Votes(front) + Votes(back)
  {
    if front == [] {
      assert front + back == back;
    } else {
      assert (front + back)[1..] == front[1..] + back;
      VotesAppend(front[1..], back);
    }
  }

  lemma FirstIsSomewhere<T>(a: seq<T>, b: seq<T>) returns (k: nat)
    requires a != [] && multiset(a) == multiset(b)
    ensures k < |b| && b[k] == a[0] && multiset(a[1..]) == multiset(b[..k] + b[k + 1..])
  {
    assert a[0] in multiset(b);
    k :| 0 <= k < |b| && b[k] == a[0];
    assert multiset(a) == multiset{a[0]} + multiset(a[1..]) by {
      assert a == [a[0]] + a[1..];
    }
    assert multiset(b) == multiset(b[..k] + b[k + 1..]) + multiset{b[k]} by {
      assert b == b[..k] + [b[k]] + b[k + 1..];
    }
    assert multiset(a[1..]) == multiset(a) - multiset{a[0]};
    assert multiset(b[..k] + b[k + 1..]) == multiset(b) - multiset{b[k]};
  }

  lemma {:induction false} VotesPermute(a: seq<PrepareReply>, b: seq<PrepareReply>)
    requires multiset(a) == multiset(b)
    ensures Votes(a) == Votes(b)
    decreases |a|
  {
    if a == [] {
      assert |multiset(b)| == 0;
    } else {
      var k := FirstIsSomewhere(a, b);
      VotesPermute(a[1..], b[..k] + b[k + 1..]);
      VotesAppend(b[..k], b[k + 1..]);
      VotesAppend(b[..k], b[k..]);
      assert b == b[..k] + b[k..] && b[k..][1..] == b[k + 1..];
    }
  }

  /** An election ends with the same log, promise and role for every order in which the same
      answers arrive; each slot holds the highest ballot among its own entry and those returned. */
  lemma ElectionOrderIrrelevant(s: Server, answers: seq<PrepareReply>, answers': seq<PrepareReply>, n: nat)
    requires multiset(answers) == multiset(answers')
    requires Consistent(s.disk.mem.log, Carried(answers))
    ensures
      var (t, b) := Election(s, answers, n);
      var (t', b') := Election(s, answers', n);
      t.disk.mem == t'.disk.mem && t.role == t'.role && b == b'
    ensures
      var (t, b) := Election(s, answers, n);
      b.Some? ==> Merges(s.disk.mem.log, Carried(answers), t.disk.mem.log)
  {
    SameCarried(answers, answers');
    VotesPermute(answers, answers');
    MergeIsUniqueForAll(s.disk.mem.log, Carried(answers), Carried(answers'));
    ElectionMerges(s, answers, n);
    ElectionMerges(s, answers', n);
  }

  /** What an election that got its ballot saved ends with. */
  lemma ElectionMerges(s: Server, answers: seq<PrepareReply>, n: nat)
    ensures
      var (t, b) := Election(s, answers, n);
      b == BeginElection(s).1 &&
      if b.None? then t == BeginElection(s).0
      else
        && t.disk.mem == s.disk.mem.(npromised := b.value, log := MergeAll(s.disk.mem.log, Carried(answers)))
        && t.role == (if 1 + Votes(answers) >= Majority(n) then Leader else Follower)
  {
    AdoptIsMerge(BeginElection(s).0.disk, Carried(answers));
  }

  ghost predicate Covers(log: seq<Entry>, entries: seq<Entry>) {
    forall e <- entries :: e.index < |log| && AtLeast(log[e.index].ballot, e.ballot)
  }

  lemma {:induction false} CoveredChangesNothing(d: Durable, entries: seq<Entry>)
    requires Covers(d.mem.log, entries)
    ensures Adopt(d, entries) == d && Install(d, entries) == (d, true)
    decreases |entries|
  {
    if entries != [] {
      assert entries[0] in entries;
      CoveredChangesNothing(d, entries[1..]);
    }
  }

  /** Merging the same promises again, in any order, changes nothing and saves nothing. */
  lemma AdoptAgain(d: Durable, entries: seq<Entry>, again: seq<Entry>)
    requires SameElements(entries, again)
    ensures Adopt(Adopt(d, entries), again) == Adopt(d, entries)
  {
    AdoptMerges(d, entries);
    CoveredChangesNothing(Adopt(d, entries), again);
  }

  // ----- catch-up -----

  /** Whatever fails, no slot is lost and no slot's ballot falls. */
  lemma {:induction false} InstallNeverLowers(d: Durable, entries: seq<Entry>, i: nat)
    requires i < |d.mem.log|
    ensures
      var log := Install(d, entries).0.mem.log;
      i < |log| && AtLeast(log[i].ballot, d.mem.log[i].ballot)
    decreases |entries|
  {
    if entries != [] {
      var (d', ok) := InstallOne(d, entries[0]);
      if ok {
        InstallNeverLowers(d', entries[1..], i);
      }
    }
  }

  /** A transfer repeated after it succeeded is a no-op. */
  lemma InstallAgain(d: Durable, entries: seq<Entry>)
    requires Install(d, entries).1
    ensures Install(Install(d, entries).0, entries) == (Install(d, entries).0, true)
  {
    InstallIsMerge(d, entries);
    MergeAllMerges(d.mem.log, entries);
    CoveredChangesNothing(Install(d, entries).0, entries);
  }

  lemma {:induction false} InstallSaves(d: Durable, entries: seq<Entry>)
    ensures
      var (d', ok) := Install(d, entries);
      && (ok ==> d' == d || d'.file == Some(d'.mem))
      && (!ok ==> true in d.faults)
    decreases |entries|
  {
    if entries != [] {
      var (d', ok) := InstallOne(d, entries[0]);
      assert forall f <- d'.faults :: f in d.faults;
      if ok {
        InstallSaves(d', entries[1..]);
      }
    }
  }

  /** A transfer answered with success has every entry, or one with a higher ballot, in its slot, in
      memory and in the file if anything had to be written; it is refused only if a save failed. */
  lemma TransferAnswers(s: Server, entries: seq<Entry>)
    ensures
      var (s', ok) := HandleStateTransfer(s, entries);
      && (ok ==> Covers(s'.disk.mem.log, entries) && (s' == s || s'.disk.file == Some(s'.disk.mem)))
      && (!ok ==> true in s.disk.faults)
  {
    InstallSaves(s.disk, entries);
    if Install(s.disk, entries).1 {
      InstallIsMerge(s.disk, entries);
      MergeAllMerges(s.disk.mem.log, entries);
    }
  }

  /** Every slot is blank or holds an entry with that index, written under some term. */
  ghost predicate Placed(log: seq<Entry>) {
    forall i :: 0 <= i < |log| ==> log[i] == BLANK || (log[i].index == i && log[i].ballot.term >= 1)
  }

  /** A blank entry is skipped once there is a slot 0; any other is written at its place. */
  lemma MergeNext(log: seq<Entry>, m: nat, j: nat)
    requires Placed(log) && m <= j < |log| && (j > 0 ==> m > 0)
    requires forall i :: m <= i < j ==> log[i] == BLANK
    ensures MergeOne(log[..m], log[j]) == if log[j] == BLANK && m > 0 then log[..m] else log[..j + 1]
  {
    if log[j] != BLANK || m == 0 {
      assert log[j].index == j;
      assert Written(log[..m], j, log[j]) == log[..j + 1];
    }
  }

  /** `r` is all of `log` but a blank tail, cut no lower than `m`. */
  ghost predicate Trimmed(log: seq<Entry>, m: nat, r: seq<Entry>) {
    && m <= |r| <= |log| && r == log[..|r|]
    && (log != [] ==> r != [])
    && (forall i :: |r| <= i < |log| ==> log[i] == BLANK)
    && (|r| == m || |r| == 1 || log[|r| - 1] != BLANK)
  }

  /** Merging a placed log's slots from `j` on, when `m` slots are there already and those
      from `m` to `j` were blank, leaves out at most a blank tail. */
  lemma {:induction false} MergeTail(log: seq<Entry>, m: nat, j: nat)
    requires Placed(log) && m <= j <= |log| && (j > 0 ==> m > 0)
    requires forall i :: m <= i < j ==> log[i] == BLANK
    ensures Trimmed(log, m, MergeAll(log[..m], log[j..]))
    decreases |log| - j
  {
    if j < |log| {
      assert log[j..][1..] == log[j + 1..];
      MergeNext(log, m, j);
      MergeTail(log, if log[j] == BLANK && m > 0 then m else j + 1, j + 1);
    }
  }

  lemma TrimmedIsWhole(log: seq<Entry>, m: nat, r: seq<Entry>)
    requires Trimmed(log, m, r)
    ensures r == log <==> m == |log| || |log| == 1 || (log != [] && log[|log| - 1] != BLANK)
  {
    if |r| == |log| {
      assert log[..|r|] == log;
    }
  }

  /** Catch-up, when its saves succeed, of a follower whose log is the first `k` slots of the
      leader's makes the logs identical exactly when nothing was missing, or the leader's log ends in a real entry, or
      it is a one-slot log: blank entries travel with index 0, so a blank tail is not sent. */
  lemma CatchUpExact(d: Durable, log: seq<Entry>, k: nat)
    requires Placed(log) && k <= |log| && d.mem.log == log[..k]
    ensures
      var (d', ok) := Install(d, MissingEntries(log, k, |log|));
      && (ok ==> (d'.mem.log == log <==> k == |log| || |log| == 1 || log[|log| - 1] != BLANK))
      && (d.faults == [] ==> ok)
  {
    assert MissingEntries(log, k, |log|) == log[k..];
    InstallIsMerge(d, log[k..]);
    MergeTail(log, k, k);
    TrimmedIsWhole(log, k, MergeAll(log[..k], log[k..]));
  }
}
