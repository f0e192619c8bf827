/** The view service settles when the set of alive servers stays fixed. */
module Convergence {
  import opened ViewService
  import opened ViewRuns

  /** A ping between two ticks. */
  datatype Call = Call(name: string, number: nat, now: int)

  function PingAll(s: Service, calls: seq<Call>): Service
    decreases |calls|
  {
    if calls == [] then s else PingAll(Ping(s, calls[0].name, calls[0].number, calls[0].now), calls[1..])
  }

  ghost predicate AliveAre(s: Service, live: set<string>) {
    forall name :: name in live <==> Alive(s, name)
  }

  /** An alive primary pings with the current view number among the calls. */
  ghost predicate Acks(calls: seq<Call>, v: View) {
    exists c <- calls :: c.name == v.primary && c.number == v.number
  }

  /** One tick that finds exactly `live` alive, and then pings of alive servers only, among them
      an acknowledgement by the primary if it is alive. */
  ghost predicate RoundBy(s: Service, s': Service, live: set<string>, now: int, order: seq<string>,
                          order': seq<string>, calls: seq<Call>) {
    && Visits(order, s) && Visits(order', s)
    && var t := Tick(s, now, order, order');
       && AliveAre(t, live)
       && (forall c <- calls :: c.name in live)
       && (t.view.primary in live ==> Acks(calls, t.view))
       && s' == PingAll(t, calls)
  }

  ghost predicate Round(s: Service, s': Service, live: set<string>) {
    exists now, order, order', calls :: RoundBy(s, s', live, now, order, order', calls)
  }

  /** An alive primary, and an alive backup other than it if there is one to be had. */
  ghost predicate Settled(v: View, live: set<string>) {
    && v.primary in live
    && if |live| >= 2 then v.backup in live && v.backup != v.primary else v.backup == ""
  }

  // ----- one round -----

  lemma {:induction false} PingsChangeNoView(s: Service, calls: seq<Call>, live: set<string>)
    requires Structured(s) && AliveAre(s, live) && forall c <- calls :: c.name in live
    ensures
      var s' := PingAll(s, calls);
      Structured(s') && AliveAre(s', live) && s'.view == s.view && s'.servers.Keys == s.servers.Keys
      && (s'.acked <==> s.acked || Acks(calls, s.view))
    decreases |calls|
  {
    if calls != [] {
      var c := calls[0];
      var s1 := Ping(s, c.name, c.number, c.now);
      assert c in calls;
      StepStructured(s, Pinged(c.name, c.number, c.now), s1);
      PingsChangeNoView(s1, calls[1..], live);
      assert calls == [c] + calls[1..];
    }
  }

  /** The view and the flag after a round, from those before. */
  ghost predicate Moves(v: View, acked: bool, v': View, acked': bool, live: set<string>) {
    var p, b := v.primary, v.backup;
    var p', b', rise := v'.primary, v'.backup, v'.number - v.number;
    if p == "" then
      p' in live && b' == "" && acked' && rise == 1
    else if p in live then
      acked' && p' == p &&
      if b in live then b' == b && rise == 0
      else if acked then Settled(v', live) && 0 <= rise <= (if b == "" then 1 else 2)
      else b' == "" && rise == (if b == "" then 0 else 1)
    else if !acked then
      p' == p && !acked' && 0 <= rise
    else if b in live then
      p' == b && b' == "" && acked' && rise == 1
    else if b == "" then
      p' in live && b' == "" && acked' && rise == 2
    else
      p' == p && b' in live && acked' && rise == 2
  }

  lemma OthersLive(live: set<string>, p: string)
    requires p in live
    ensures |live| >= 2 <==> exists name <- live :: name != p
  {
    var rest := live - {p};
    assert |rest| == |live| - 1;
    if name :| name in live && name != p {
      assert name in rest;
    } else {
      assert rest == {};
    }
  }

  /** A service in which exactly `live` are alive, and an order that visits all of them. */
  ghost predicate Found(m: Service, live: set<string>, order: seq<string>) {
    && Structured(m) && AliveAre(m, live) && live != {} && (forall name <- live :: name in order)
  }

  lemma SomeFirst(m: Service, live: set<string>, order: seq<string>)
    requires Found(m, live, order)
    ensures FirstAlive(m, order, "").Some?
  {
    var name :| name in live;
    assert Alive(m, name) && name != "";
  }

  /** The backup that a confirmed, alive primary without one is given settles the view. */
  lemma AssignSettles(m: Service, live: set<string>, order: seq<string>)
    requires Found(m, live, order) && m.view.primary in live && m.view.backup == "" && m.acked
    ensures
      var t := AssignBackup(m, order);
      Settled(t.view, live) && t.view.primary == m.view.primary && m.view.number <= t.view.number <= m.view.number + 1
  {
    OthersLive(live, m.view.primary);
    assert FirstAlive(m, order, m.view.primary).None? ==>
      forall name <- live :: Alive(m, name) && name == m.view.primary;
  }

  function Assigned(m: Service, order: seq<string>, order': seq<string>): Service {
    AssignBackup(AssignPrimary(CheckBackup(CheckPrimary(m)), order), order')
  }

  lemma AlivePrimaryMoves(m: Service, live: set<string>, order: seq<string>, order': seq<string>)
    requires Found(m, live, order) && Found(m, live, order') && m.view.primary in live
    ensures
      var t := Assigned(m, order, order');
      Moves(m.view, m.acked, t.view, t.acked || t.view.primary in live, live)
  {
    assert CheckPrimary(m) == m;
    var a := CheckBackup(m);
    if m.view.backup !in live {
      assert m.view.backup != "" ==> Dead(m, m.view.backup);
      assert a.view.backup == "" && Structured(a) && AliveAre(a, live);
      if m.acked {
        AssignSettles(a, live, order');
      }
    }
  }

  lemma NoPrimaryMoves(m: Service, live: set<string>, order: seq<string>, order': seq<string>)
    requires Found(m, live, order) && m.view.primary == ""
    ensures
      var t := Assigned(m, order, order');
      Moves(m.view, m.acked, t.view, t.acked || t.view.primary in live, live)
  {
    SomeFirst(m, live, order);
    assert CheckBackup(CheckPrimary(m)) == m;
  }

  lemma DeadPrimaryMoves(m: Service, live: set<string>, order: seq<string>, order': seq<string>)
    requires Found(m, live, order) && Found(m, live, order') && m.view.primary != "" && m.view.primary !in live
    ensures
      var t := Assigned(m, order, order');
      Moves(m.view, m.acked, t.view, t.acked || t.view.primary in live, live)
  {
    assert Dead(m, m.view.primary);
    var a := CheckBackup(CheckPrimary(m));
    assert Structured(a) && AliveAre(a, live);
    SomeFirst(m, live, order);
    SomeFirst(a, live, order);
    SomeFirst(a, live, order');
    assert m.view.backup !in live && m.view.backup != "" ==> Dead(m, m.view.backup);
    var someone :| someone in live;
    assert Alive(a, someone) && someone in order';
  }

  lemma FoundMoves(m: Service, live: set<string>, order: seq<string>, order': seq<string>)
    requires Found(m, live, order) && Found(m, live, order')
    ensures
      var t := Assigned(m, order, order');
      Moves(m.view, m.acked, t.view, t.acked || t.view.primary in live, live)
  {
    if m.view.primary == "" {
      NoPrimaryMoves(m, live, order, order');
    } else if m.view.primary in live {
      AlivePrimaryMoves(m, live, order, order');
    } else {
      DeadPrimaryMoves(m, live, order, order');
    }
  }

  lemma AssignedServers(m: Service, order: seq<string>, order': seq<string>)
    ensures Assigned(m, order, order').servers == m.servers
  {
  }

  lemma TickFinds(s: Service, live: set<string>, now: int, order: seq<string>, order': seq<string>)
    requires Structured(s) && live != {} && Visits(order, s) && Visits(order', s)
    requires AliveAre(Tick(s, now, order, order'), live)
    ensures Found(MarkDead(s, now), live, order) && Found(MarkDead(s, now), live, order')
  {
    var m := MarkDead(s, now);
    AssignedServers(m, order, order');
    forall name
      ensures name in live <==> Alive(m, name)
    {
      assert name in live <==> Alive(Tick(s, now, order, order'), name);
    }
  }

  lemma RoundMoves(s: Service, s': Service, live: set<string>)
    requires Structured(s) && Round(s, s', live) && live != {}
    ensures Structured(s') && Moves(s.view, s.acked, s'.view, s'.acked, live) && "" !in live
    ensures s'.view.primary == s.view.primary && s'.view.backup == s.view.backup ==> s'.view == s.view
  {
    var now, order, order', calls :| RoundBy(s, s', live, now, order, order', calls);
    var t := Tick(s, now, order, order');
    TickStructured(s, now, order, order');
    PingsChangeNoView(t, calls, live);
    TickFinds(s, live, now, order, order');
    FoundMoves(MarkDead(s, now), live, order, order');
    TickNumbers(s, now, order, order');
  }

  // ----- any number of rounds -----

  ghost predicate Rounds(run: seq<Service>, live: set<string>) {
    run != [] && Structured(run[0]) && live != {}
    && forall i :: 0 <= i < |run| - 1 ==> Round(run[i], run[i + 1], live)
  }

  /** The starting primary is nobody, alive, or acked. */
  ghost predicate Hopeful(v: View, acked: bool, live: set<string>) {
    v.primary == "" || v.primary in live || acked
  }

  /** How many rounds a view can need to settle, and how far its number can rise. */
  ghost function RoundsLeft(v: View, acked: bool, live: set<string>): nat {
    if Settled(v, live) then 0
    else if v.primary in live then if acked then 1 else 2
    else if v.primary == "" || v.backup in live || v.backup == "" then 2
    else 3
  }

  ghost function RiseLeft(v: View, acked: bool, live: set<string>): nat {
    if Settled(v, live) then 0
    else if v.primary in live then if v.backup == "" then 1 else 2
    else if v.primary == "" || v.backup in live then 2
    else if v.backup == "" then 3
    else 4
  }

  ghost predicate Progress(v: View, acked: bool, v': View, acked': bool, live: set<string>) {
    && Hopeful(v', acked', live)
    && (RoundsLeft(v, acked, live) > 0 ==> RoundsLeft(v', acked', live) < RoundsLeft(v, acked, live))
    && v'.number + RiseLeft(v', acked', live) <= v.number + RiseLeft(v, acked, live)
    && (Settled(v, live) ==> v' == v)
  }

  lemma MovesProgress(v: View, acked: bool, v': View, acked': bool, live: set<string>)
    requires Moves(v, acked, v', acked', live) && Hopeful(v, acked, live) && "" !in live
    requires v.primary == v.backup ==> v.primary == ""
    requires v'.primary == v.primary && v'.backup == v.backup ==> v' == v
    ensures Progress(v, acked, v', acked', live)
  {
    if v.primary in live {
      OthersLive(live, v.primary);
    } else if v'.primary in live {
      OthersLive(live, v'.primary);
    }
  }

  lemma RoundProgress(s: Service, s': Service, live: set<string>)
    requires Structured(s) && Round(s, s', live) && live != {} && Hopeful(s.view, s.acked, live)
    ensures Progress(s.view, s.acked, s'.view, s'.acked, live)
  {
    RoundMoves(s, s', live);
    MovesProgress(s.view, s.acked, s'.view, s'.acked, live);
  }

  /** After `i` rounds: progress from the start, or a dead unconfirmed primary that stays. */
  lemma {:induction false} RoundsProgress(run: seq<Service>, live: set<string>, i: nat)
    requires Rounds(run, live) && i < |run|
    ensures Structured(run[i])
    ensures
      var s, t := run[0], run[i];
      if Hopeful(s.view, s.acked, live) then
        && Hopeful(t.view, t.acked, live)
        && RoundsLeft(t.view, t.acked, live) <= (if i < 3 then 3 - i else 0)
        && t.view.number + RiseLeft(t.view, t.acked, live) <= s.view.number + 4
      else
        t.view.primary == s.view.primary && !Hopeful(t.view, t.acked, live)
  {
    if i > 0 {
      RoundsProgress(run, live, i - 1);
      RoundMoves(run[i - 1], run[i], live);
      if Hopeful(run[i - 1].view, run[i - 1].acked, live) {
        RoundProgress(run[i - 1], run[i], live);
      }
    }
  }

  /** Within three rounds, and raising the number by at most four, the view reaches an alive
      primary with an alive backup if two servers live (else none), for every iteration order. */
  lemma Converges(run: seq<Service>, live: set<string>, i: nat)
    requires Rounds(run, live) && 3 <= i < |run| && Hopeful(run[0].view, run[0].acked, live)
    ensures Settled(run[3].view, live) && run[3].view.number <= run[0].view.number + 4
    ensures run[i].view == run[3].view
  {
    RoundsProgress(run, live, 3);
    SettledStays(run, live, i);
  }

  lemma {:induction false} SettledStays(run: seq<Service>, live: set<string>, i: nat)
    requires Rounds(run, live) && 3 <= i < |run| && Hopeful(run[0].view, run[0].acked, live)
    ensures run[i].view == run[3].view
  {
    if i > 3 {
      SettledStays(run, live, i - 1);
      RoundsProgress(run, live, i - 1);
      RoundProgress(run[i - 1], run[i], live);
    }
  }

  /** The condition is exact: from a dead primary that never acknowledged, no number of rounds
      ever reaches an alive primary; otherwise three do. */
  lemma ConvergesExactly(run: seq<Service>, live: set<string>, i: nat)
    requires Rounds(run, live) && 3 <= i < |run|
    ensures run[i].view.primary in live <==> Hopeful(run[0].view, run[0].acked, live)
  {
    RoundsProgress(run, live, i);
    if Hopeful(run[0].view, run[0].acked, live) {
      Converges(run, live, i);
    }
  }
}
