/** Which servers the view service takes for alive, idle and acknowledging, over every run of
    ViewRuns.dfy, told by the pings and ticks alone. */
module Liveness {
  import opened ViewService
  import opened ViewRuns

  ghost predicate PingedAt(moves: seq<Move>, name: string, p: nat) {
    p < |moves| && moves[p].Pinged? && moves[p].name == name
  }

  /** Move `p` is the last ping of `name` before state `t`. */
  ghost predicate LastPing(moves: seq<Move>, name: string, p: nat, t: nat) {
    p < t && PingedAt(moves, name, p) && forall q :: p < q < t ==> !PingedAt(moves, name, q)
  }

  /** A tick between came more than 1500 milliseconds after ping `p`. */
  ghost predicate Overdue(moves: seq<Move>, p: nat, t: nat) {
    exists q :: p < q < t && q < |moves| && TickedLate(moves, p, q)
  }

  ghost predicate TickedLate(moves: seq<Move>, p: nat, q: nat) {
    p < |moves| && q < |moves| && moves[p].Pinged? && moves[q].Ticked? && moves[q].now - moves[p].now > 1500
  }

  lemma TickServers(s: Service, now: int, order: seq<string>, order': seq<string>)
    ensures Tick(s, now, order, order').servers == MarkDead(s, now).servers
  {
  }

  /** A server is known exactly when it has pinged. */
  lemma {:induction false} KnownIffPinged(run: seq<Service>, moves: seq<Move>, t: nat, name: string)
    requires IsRun(run, moves) && t < |run|
    ensures name in run[t].servers <==> exists p: nat :: p < t && PingedAt(moves, name, p)
  {
    if t > 0 {
      var m := moves[t - 1];
      KnownIffPinged(run, moves, t - 1, name);
      assert Next(run[t - 1], m, run[t]);
      if m.Ticked? {
        TickServers(run[t - 1], m.now, m.order, m.order');
      } else if m.name == name {
        assert PingedAt(moves, name, t - 1);
      }
    }
  }

  lemma {:induction false} InfoIs(run: seq<Service>, moves: seq<Move>, t: nat, name: string, p: nat)
    requires IsRun(run, moves) && t < |run| && LastPing(moves, name, p, t)
    ensures name in run[t].servers && run[t].servers[name] == Info(moves[p].now, !Overdue(moves, p, t))
  {
    var m := moves[t - 1];
    assert Next(run[t - 1], m, run[t]);
    if p < t - 1 {
      InfoIs(run, moves, t - 1, name, p);
      assert !PingedAt(moves, name, t - 1);
      assert Overdue(moves, p, t) <==> Overdue(moves, p, t - 1) || TickedLate(moves, p, t - 1);
      if m.Ticked? {
        TickServers(run[t - 1], m.now, m.order, m.order');
      }
    }
  }

  /** In every run a server that has pinged counts as alive if and only if no tick since its last
      ping came more than 1500 milliseconds after that ping. */
  lemma AliveIffNotOverdue(run: seq<Service>, moves: seq<Move>, t: nat, name: string, p: nat)
    requires IsRun(run, moves) && t < |run| && LastPing(moves, name, p, t)
    ensures Alive(run[t], name) <==> !Overdue(moves, p, t)
    ensures Dead(run[t], name) <==> Overdue(moves, p, t)
  {
    InfoIs(run, moves, t, name, p);
  }

  /** With ticks in the order of their clocks: after a tick, if and only if that tick came no more
      than 1500 milliseconds after the server's last ping. */
  lemma AliveAfterTick(run: seq<Service>, moves: seq<Move>, i: nat, name: string, p: nat)
    requires IsRun(run, moves) && i < |moves| && moves[i].Ticked? && LastPing(moves, name, p, i)
    requires forall q :: p < q < i && moves[q].Ticked? ==> moves[q].now <= moves[i].now
    ensures Alive(run[i + 1], name) <==> moves[i].now - moves[p].now <= 1500
  {
    LateInOrder(moves, i, name, p);
    AliveIffNotOverdue(run, moves, i + 1, name, p);
  }

  lemma LateInOrder(moves: seq<Move>, i: nat, name: string, p: nat)
    requires i < |moves| && moves[i].Ticked? && LastPing(moves, name, p, i)
    requires forall q :: p < q < i && moves[q].Ticked? ==> moves[q].now <= moves[i].now
    ensures LastPing(moves, name, p, i + 1)
    ensures Overdue(moves, p, i + 1) <==> moves[i].now - moves[p].now > 1500
  {
    assert TickedLate(moves, p, i) <==> moves[i].now - moves[p].now > 1500;
  }

  // ----- idle servers -----

  /** The server has been primary or backup by state `t`. */
  ghost predicate HadRole(run: seq<Service>, t: nat, name: string) {
    exists k: nat :: k <= t && k < |run| && HasRole(run[k], name)
  }

  ghost predicate HasRole(s: Service, name: string) {
    s.view.primary == name || s.view.backup == name
  }

  /** A tick takes from the idle servers exactly those it gives a role. */
  lemma TickIdle(s: Service, now: int, order: seq<string>, order': seq<string>, name: string)
    requires Structured(s) && name != ""
    ensures
      var s' := Tick(s, now, order, order');
      name in s'.idle <==> name in s.idle && !HasRole(s', name)
  {
    var a := CheckBackup(CheckPrimary(MarkDead(s, now)));
    assert a.idle == s.idle && (HasRole(a, name) ==> HasRole(s, name));
    var b := AssignPrimary(a, order);
    assert b.view.primary != a.view.primary ==> b.acked == false;
  }

  /** In every run the idle servers are the known ones that have never been primary or backup. */
  lemma {:induction false} IdleIffNoRoleYet(run: seq<Service>, moves: seq<Move>, t: nat, name: string)
    requires IsRun(run, moves) && t < |run| && name != ""
    ensures name in run[t].idle <==> name in run[t].servers && !HadRole(run, t, name)
  {
    if t > 0 {
      var s, m, s' := run[t - 1], moves[t - 1], run[t];
      IdleIffNoRoleYet(run, moves, t - 1, name);
      RunStructured(run, moves, t - 1);
      RunStructured(run, moves, t);
      assert Next(s, m, s');
      assert HadRole(run, t, name) <==> HadRole(run, t - 1, name) || HasRole(s', name);
      if m.Ticked? {
        TickServers(s, m.now, m.order, m.order');
        TickIdle(s, m.now, m.order, m.order', name);
      } else {
        if HadRole(run, t - 1, name) {
          RolesAreKnown(run, moves, t - 1, name);
        }
      }
    } else {
      assert !HasRole(run[0], name);
    }
  }

  lemma {:induction false} RolesAreKnown(run: seq<Service>, moves: seq<Move>, t: nat, name: string)
    requires IsRun(run, moves) && t < |run| && name != "" && HadRole(run, t, name)
    ensures name in run[t].servers
  {
    RunStructured(run, moves, t);
    if !HasRole(run[t], name) {
      var k: nat :| k <= t && k < |run| && HasRole(run[k], name);
      assert k < t;
      RolesAreKnown(run, moves, t - 1, name);
      assert Next(run[t - 1], moves[t - 1], run[t]);
    }
  }

  // ----- acknowledgement -----

  /** A tick lowers the flag exactly when it installs a primary, and raises it exactly when there
      is none left. */
  lemma TickFlag(s: Service, now: int, order: seq<string>, order': seq<string>)
    requires Structured(s)
    ensures
      var s' := Tick(s, now, order, order');
      s'.acked <==> s'.view.primary == "" || (s'.view.primary == s.view.primary && s.acked)
  {
  }

  /** In every run the flag is up if and only if there is no primary, or the primary has pinged with
      the number then current in its tenure. */
  lemma {:induction false} AckedIffConfirmed(run: seq<Service>, moves: seq<Move>, i: nat)
    requires IsRun(run, moves) && i < |run|
    ensures run[i].acked <==> run[i].view.primary == "" || exists k :: ConfirmedAt(run, moves, i, k)
  {
    RunStructured(run, moves, i);
    if run[i].acked && run[i].view.primary != "" {
      var k := AckedIsConfirmed(run, moves, i);
    }
    if k :| ConfirmedAt(run, moves, i, k) {
      ConfirmedIsAcked(run, moves, i, k);
    }
  }

  lemma AckStays(s: Service, m: Move, s': Service)
    requires Structured(s) && Next(s, m, s') && s'.view.primary == s.view.primary && s.acked
    ensures s'.acked
  {
    if m.Ticked? {
      TickFlag(s, m.now, m.order, m.order');
    }
  }

  lemma RunAckStays(run: seq<Service>, moves: seq<Move>, i: nat)
    requires IsRun(run, moves) && i < |moves| && run[i + 1].view.primary == run[i].view.primary && run[i].acked
    ensures run[i + 1].acked
  {
    RunStructured(run, moves, i);
    AckStays(run[i], moves[i], run[i + 1]);
  }

  lemma {:induction false} ConfirmedIsAcked(run: seq<Service>, moves: seq<Move>, i: nat, k: nat)
    requires IsRun(run, moves) && ConfirmedAt(run, moves, i, k)
    ensures run[i].acked
  {
    if k < i - 1 {
      assert ConfirmedAt(run, moves, i - 1, k);
      ConfirmedIsAcked(run, moves, i - 1, k);
      RunAckStays(run, moves, i - 1);
    }
  }
}
