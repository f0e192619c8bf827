/** Every run of atomic pings and ticks of the view service. Server names are not empty. */
module ViewRuns {
  import opened Types
  import opened ViewService

  datatype Move =
    | Pinged(name: string, number: nat, now: int)
    | Ticked(now: int, order: seq<string>, order': seq<string>)

  ghost predicate Next(s: Service, m: Move, s': Service) {
    match m
    case Pinged(name, number, now) => name != "" && s' == Ping(s, name, number, now)
    case Ticked(now, order, order') => Visits(order, s) && Visits(order', s) && s' == Tick(s, now, order, order')
  }

  ghost predicate IsRun(run: seq<Service>, moves: seq<Move>) {
    && |run| == |moves| + 1
    && run[0] == INITIAL
    && forall i :: 0 <= i < |moves| ==> Next(run[i], moves[i], run[i + 1])
  }

  ghost predicate Distinct(names: seq<string>) {
    forall i, j :: 0 <= i < j < |names| ==> names[i] != names[j]
  }

  /** Primary and backup are different known servers, there is no backup without a primary, a
      missing primary counts as acked, and the idle servers are distinct known ones without a role. */
  ghost predicate Structured(s: Service) {
    && "" !in s.servers
    && (s.view.primary == s.view.backup ==> s.view.primary == "")
    && (s.view.primary == "" ==> s.view.backup == "" && s.acked)
    && (s.view.primary != "" ==> s.view.primary in s.servers)
    && (s.view.backup != "" ==> s.view.backup in s.servers)
    && Distinct(s.idle)
    && (forall name <- s.idle :: name in s.servers && name != s.view.primary && name != s.view.backup)
  }

  lemma {:induction false} WithoutKeepsDistinct(names: seq<string>, name: string)
    requires Distinct(names)
    ensures Distinct(Without(names, name))
  {
    if names != [] {
      WithoutKeepsDistinct(names[1..], name);
      assert names[0] !in names[1..];
      assert names[0] !in Without(names[1..], name);
    }
  }

  lemma TickStructured(s: Service, now: int, order: seq<string>, order': seq<string>)
    requires Structured(s)
    ensures Structured(Tick(s, now, order, order'))
  {
    var a := CheckBackup(CheckPrimary(MarkDead(s, now)));
    assert Structured(a);
    var b := AssignPrimary(a, order);
    if b != a {
      WithoutKeepsDistinct(a.idle, b.view.primary);
    }
    assert Structured(b);
    var c := AssignBackup(b, order');
    if c != b {
      WithoutKeepsDistinct(b.idle, c.view.backup);
    }
  }

  lemma StepStructured(s: Service, m: Move, s': Service)
    requires Structured(s) && Next(s, m, s')
    ensures Structured(s')
  {
    match m {
      case Pinged(name, number, now) =>
      case Ticked(now, order, order') => TickStructured(s, now, order, order');
    }
  }

  /** View structure in every reachable state. */
  lemma {:induction false} RunStructured(run: seq<Service>, moves: seq<Move>, i: nat)
    requires IsRun(run, moves) && i < |run|
    ensures Structured(run[i])
  {
    if i > 0 {
      RunStructured(run, moves, i - 1);
      StepStructured(run[i - 1], moves[i - 1], run[i]);
    }
  }

  // ----- numbers -----

  /** A tick raises the number by 0, 1 or 2, and by 0 exactly when primary and backup stay. */
  lemma TickNumbers(s: Service, now: int, order: seq<string>, order': seq<string>)
    requires Structured(s)
    ensures
      var v, v' := s.view, Tick(s, now, order, order').view;
      && v.number <= v'.number <= v.number + 2
      && (v'.number == v.number <==> v'.primary == v.primary && v'.backup == v.backup)
  {
    var a := MarkDead(s, now);
    var b := CheckBackup(CheckPrimary(a));
    var c := AssignPrimary(b, order);
    assert c.view.primary != "" && c.view.primary != b.view.primary ==> Alive(a, c.view.primary);
    assert b.view != a.view ==> b.view.number > a.view.number;
  }

  /** From any state at all a tick never leaves one server in both roles unless it was before. */
  lemma TickNeverBoth(s: Service, now: int, order: seq<string>, order': seq<string>)
    requires s.view.primary == s.view.backup ==> s.view.primary == ""
    ensures
      var v := Tick(s, now, order, order').view;
      v.primary == v.backup ==> v.primary == ""
  {
  }

  /** A server with an empty name would break this: given the backup role, it raises the number
      of a view that stays the same. */
  lemma EmptyNameRaisesNumber()
    ensures
      var known := Ping(Ping(INITIAL, "a", 0, 0), "", 0, 0);
      var led := Ping(Tick(known, 0, ["a", ""], ["a", ""]), "a", 1, 0);
      led.view == View(1, "a", "") && Tick(led, 0, ["a", ""], ["", "a"]).view == View(2, "a", "")
  {
    var known := Ping(Ping(INITIAL, "a", 0, 0), "", 0, 0);
    assert FirstAlive(MarkDead(known, 0), ["a", ""], "") == Some("a");
    var led := Ping(Tick(known, 0, ["a", ""], ["a", ""]), "a", 1, 0);
    assert FirstAlive(MarkDead(led, 0), ["", "a"], "a") == Some("");
  }

  lemma StepNumbers(s: Service, m: Move, s': Service)
    requires Structured(s) && Next(s, m, s')
    ensures s.view.number <= s'.view.number && (s'.view.number == s.view.number ==> s'.view == s.view)
  {
    if m.Ticked? {
      TickNumbers(s, m.now, m.order, m.order');
    }
  }

  ghost predicate Rising(views: seq<View>) {
    forall i :: 0 <= i < |views| - 1 ==>
      views[i].number <= views[i + 1].number && (views[i + 1].number == views[i].number ==> views[i + 1] == views[i])
  }

  function Views(run: seq<Service>): (r: seq<View>)
    ensures |r| == |run| && forall i :: 0 <= i < |r| ==> r[i] == run[i].view
  {
    seq(|run|, i requires 0 <= i < |run| => run[i].view)
  }

  lemma RunRises(run: seq<Service>, moves: seq<Move>)
    requires IsRun(run, moves)
    ensures Rising(Views(run))
  {
    forall i | 0 <= i < |run| - 1
      ensures run[i].view.number <= run[i + 1].view.number
      ensures run[i + 1].view.number == run[i].view.number ==> run[i + 1].view == run[i].view
    {
      RunStructured(run, moves, i);
      StepNumbers(run[i], moves[i], run[i + 1]);
    }
  }

  lemma {:induction false} RisingDetermines(views: seq<View>, i: nat, j: nat)
    requires Rising(views) && i <= j < |views|
    ensures views[i].number <= views[j].number
    ensures views[i].number == views[j].number ==> views[i] == views[j]
  {
    if i < j {
      RisingDetermines(views, i, j - 1);
      assert views[j - 1].number <= views[j - 1 + 1].number;
    }
  }

  /** Numbers never fall, and views with the same number are identical, whenever they are
      handed out. */
  lemma NumberDeterminesView(run: seq<Service>, moves: seq<Move>, i: nat, j: nat)
    requires IsRun(run, moves) && i <= j < |run|
    ensures run[i].view.number <= run[j].view.number
    ensures run[i].view.number == run[j].view.number ==> run[i].view == run[j].view
  {
    RunRises(run, moves);
    RisingDetermines(Views(run), i, j);
  }

  // ----- succession -----

  /** At move `k` the primary of state `i` pinged with the number then current, and it has been
      primary ever since. */
  ghost predicate ConfirmedAt(run: seq<Service>, moves: seq<Move>, i: nat, k: nat) {
    && k < i < |run| && |run| == |moves| + 1
    && moves[k].Pinged? && moves[k].name == run[i].view.primary && moves[k].number == run[k].view.number
    && forall j :: k <= j <= i ==> run[j].view.primary == run[i].view.primary
  }

  lemma {:induction false} AckedIsConfirmed(run: seq<Service>, moves: seq<Move>, i: nat) returns (k: nat)
    requires IsRun(run, moves) && i < |run| && run[i].acked && run[i].view.primary != ""
    ensures ConfirmedAt(run, moves, i, k)
  {
    var m := moves[i - 1];
    RunStructured(run, moves, i - 1);
    assert Next(run[i - 1], m, run[i]);
    if run[i - 1].acked && run[i - 1].view.primary == run[i].view.primary {
      k := AckedIsConfirmed(run, moves, i - 1);
    } else {
      if m.Ticked? {
        TickAcks(run[i - 1], m.now, m.order, m.order');
      }
      k := i - 1;
    }
  }

  /** A tick acks nothing but the absence of a primary, and a new primary is not acked. */
  lemma TickAcks(s: Service, now: int, order: seq<string>, order': seq<string>)
    requires Structured(s)
    ensures
      var s' := Tick(s, now, order, order');
      s'.acked && s'.view.primary != "" ==> s.acked && s'.view.primary == s.view.primary
  {
  }

  /** When a tick replaces a primary, the primary was dead and acked; its successor is its alive
      backup, or there was no backup and it is nobody or some other alive server. */
  lemma TickSucceeds(s: Service, now: int, order: seq<string>, order': seq<string>)
    requires Structured(s)
    ensures
      var s' := Tick(s, now, order, order');
      s.view.primary != "" && s'.view.primary != s.view.primary ==>
        && s.acked && Dead(MarkDead(s, now), s.view.primary)
        && if s.view.backup != "" then s'.view.primary == s.view.backup && Alive(MarkDead(s, now), s.view.backup)
           else s'.view.primary == "" || Alive(MarkDead(s, now), s'.view.primary)
  {
  }

  /** In every run the primary changes only after it has pinged with the current view number in
      its tenure; it is then declared dead, and followed by its alive backup, or, when it had no
      backup, by nobody or another alive server. */
  lemma Succession(run: seq<Service>, moves: seq<Move>, i: nat) returns (k: nat)
    requires IsRun(run, moves) && i + 1 < |run|
    requires run[i].view.primary != "" && run[i + 1].view.primary != run[i].view.primary
    ensures ConfirmedAt(run, moves, i, k)
    ensures moves[i].Ticked?
    ensures
      var marked := MarkDead(run[i], moves[i].now);
      && Dead(marked, run[i].view.primary)
      && if run[i].view.backup != ""
         then run[i + 1].view.primary == run[i].view.backup && Alive(marked, run[i].view.backup)
         else run[i + 1].view.primary == "" || Alive(marked, run[i + 1].view.primary)
  {
    RunStructured(run, moves, i);
    assert Next(run[i], moves[i], run[i + 1]);
    TickSucceeds(run[i], moves[i].now, moves[i].order, moves[i].order');
    k := AckedIsConfirmed(run, moves, i);
  }
}
