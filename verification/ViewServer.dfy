/** The view service as an object that pings and ticks update in place. */
module ViewServer {
  import opened ViewService

  /** What is kept so far and what is still to be filtered. */
  lemma WithoutFirst(kept: seq<string>, names: seq<string>, i: nat, name: string)
    requires i < |names|
    ensures kept + Without(names[i..], name) ==
      (if names[i] != name then kept + [names[i]] else kept) + Without(names[i + 1..], name)
  {
    assert names[i..][1..] == names[i + 1..];
    assert Without(names[i..], name) == (if names[i] != name then [names[i]] else []) + Without(names[i + 1..], name);
  }

  class ViewServer {
    var currentView: View
    var servers: map<string, Info>
    var idleServers: seq<string>
    var primaryAcked: bool

    ghost function State(): Service
      reads this
    {
      Service(currentView, servers, idleServers, primaryAcked)
    }

    constructor ()
      ensures State() == INITIAL
    {
      currentView, servers, idleServers, primaryAcked := View(0, "", ""), map[], [], true;
    }

    method Ping(name: string, number: nat, now: int) returns (view: View)
      modifies this
      ensures State() == ViewService.Ping(old(State()), name, number, now)
      ensures view == State().view == old(State().view)
    {
      if name in servers {
        servers := servers[name := servers[name].(lastPing := now, alive := true)];
      } else {
        servers := servers[name := Info(now, true)];
        if name != currentView.primary && name != currentView.backup {
          idleServers := idleServers + [name];
        }
      }
      if name == currentView.primary && number == currentView.number {
        primaryAcked := true;
      }
      view := currentView;
    }

    method RemoveFromIdle(name: string)
      modifies this`idleServers
      ensures idleServers == Without(old(idleServers), name)
    {
      var newIdle, names := [], idleServers;
      assert names[0..] == names;
      for i := 0 to |names|
        invariant newIdle + Without(names[i..], name) == Without(names, name)
      {
        WithoutFirst(newIdle, names, i, name);
        if names[i] != name {
          newIdle := newIdle + [names[i]];
        }
      }
      idleServers := newIdle;
    }

    /** Visits the known servers in `order` and marks those that have not pinged for too long. */
    method MarkDeadServers(now: int, order: seq<string>)
      requires Visits(order, State())
      modifies this`servers
      ensures State() == MarkDead(old(State()), now)
    {
      for i := 0 to |order|
        invariant servers.Keys == old(servers).Keys
        invariant forall name <- servers :: name in order[..i] ==> servers[name] == Aged(old(servers)[name], now)
        invariant forall name <- servers :: name !in order[..i] ==> servers[name] == old(servers)[name]
      {
        var name := order[i];
        if now - servers[name].lastPing > DEAD_INTERVAL {
          if servers[name].alive {
            servers := servers[name := servers[name].(alive := false)];
          }
        }
      }
      assert order[..|order|] == order;
    }

    method CheckFailuresAndPromote(now: int, order0: seq<string>, order1: seq<string>, order2: seq<string>)
      requires Visits(order0, State())
      modifies this
      ensures State() == Tick(old(State()), now, order1, order2)
    {
      MarkDeadServers(now, order0);
      if currentView.primary != "" {
        if currentView.primary in servers && !servers[currentView.primary].alive {
          if primaryAcked && currentView.backup != "" {
            if currentView.backup in servers && servers[currentView.backup].alive {
              currentView := View(currentView.number + 1, currentView.backup, "");
              primaryAcked := false;
            }
          } else if primaryAcked {
            currentView := View(currentView.number + 1, "", currentView.backup);
            primaryAcked := true;
          }
        }
      }
      assert State() == CheckPrimary(MarkDead(old(State()), now));
      if currentView.backup != "" {
        if currentView.backup in servers && !servers[currentView.backup].alive {
          currentView := View(currentView.number + 1, currentView.primary, "");
        }
      }
      assert State() == CheckBackup(CheckPrimary(MarkDead(old(State()), now)));
      AssignNewPrimary(order1);
      AssignNewBackup(order2);
    }

    method AssignNewPrimary(order: seq<string>)
      modifies this
      ensures State() == AssignPrimary(old(State()), order)
    {
      if currentView.primary == "" && primaryAcked {
        for i := 0 to |order|
          invariant State() == old(State())
          invariant FirstAlive(State(), order[i..], currentView.backup) ==
            FirstAlive(State(), order, currentView.backup)
        {
          assert order[i..][1..] == order[i + 1..];
          var name := order[i];
          if name in servers && servers[name].alive && name != currentView.backup {
            currentView := View(currentView.number + 1, name, currentView.backup);
            primaryAcked := false;
            RemoveFromIdle(name);
            return;
          }
        }
      }
    }

    method AssignNewBackup(order: seq<string>)
      modifies this
      ensures State() == AssignBackup(old(State()), order)
    {
      if currentView.backup == "" && currentView.primary != "" && primaryAcked {
        for i := 0 to |order|
          invariant State() == old(State())
          invariant FirstAlive(State(), order[i..], currentView.primary) ==
            FirstAlive(State(), order, currentView.primary)
        {
          assert order[i..][1..] == order[i + 1..];
          var name := order[i];
          if name in servers && servers[name].alive && name != currentView.primary {
            currentView := View(currentView.number + 1, currentView.primary, name);
            RemoveFromIdle(name);
            return;
          }
        }
      }
    }
  }
}
