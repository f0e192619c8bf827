/** The view service and its key-value servers together: every run without server restarts, with
    pings delayed, lost, answered late or not at all. */
module Roles {
  import opened Types
  import opened ViewService
  import opened ViewRuns
  import opened KeyValue

  /** A server pings one at a time: idle, waiting for the answer to the number it sent, or with
      an answer on its way. */
  datatype Pinging = Idle | Waiting(number: nat) | Answered(view: View)

  datatype Node = Node(kv: KV, pinging: Pinging)

  /** A state transfer that a server has started. */
  datatype Transfer = Transfer(from: string, to: string)

  /** The pings sent (any may still arrive), the views the service has had by number, the number
      at which the present primary's tenure began, and the transfers started, in order. */
  datatype World = World(
    service: Service,
    nodes: map<string, Node>,
    pings: set<(string, nat)>,
    views: map<nat, View>,
    since: nat,
    transfers: seq<Transfer>)

  datatype Step =
    | Send(name: string)
    | Arrive(name: string, number: nat, now: int, answers: bool)
    | GiveUp(name: string)
    | Receive(name: string)
    | TickService(now: int, order: seq<string>, order': seq<string>)

  ghost predicate Init(w: World) {
    && w.service == INITIAL && w.pings == {} && w.views == map[0 := INITIAL.view] && w.since == 0
    && w.transfers == []
    && "" !in w.nodes
    && forall name <- w.nodes :: w.nodes[name] == Node(Started(name), Idle)
  }

  ghost predicate Next(w: World, step: Step, w': World) {
    match step
    case Send(name) =>
      && name in w.nodes && w.nodes[name].pinging == Idle
      && var number := w.nodes[name].kv.view.number;
         w' == w.(nodes := w.nodes[name := w.nodes[name].(pinging := Waiting(number))],
                  pings := w.pings + {(name, number)})
    case Arrive(name, number, now, answers) =>
      && (name, number) in w.pings && name in w.nodes
      && (answers ==> w.nodes[name].pinging == Waiting(number))
      && w' == w.(service := Ping(w.service, name, number, now),
                  nodes := if answers
                           then w.nodes[name := w.nodes[name].(pinging := Answered(w.service.view))]
                           else w.nodes)
    case GiveUp(name) =>
      name in w.nodes && w' == w.(nodes := w.nodes[name := w.nodes[name].(pinging := Idle)])
    case Receive(name) =>
      && name in w.nodes && w.nodes[name].pinging.Answered?
      && var (kv, transfer) := Observe(w.nodes[name].kv, w.nodes[name].pinging.view);
         w' == w.(nodes := w.nodes[name := Node(kv, Idle)],
                  transfers := if transfer then w.transfers + [Transfer(name, kv.view.backup)] else w.transfers)
    case TickService(now, order, order') =>
      && Visits(order, w.service) && Visits(order', w.service)
      && var s := Tick(w.service, now, order, order');
         w' == w.(service := s, views := w.views[s.view.number := s.view],
                  since := if s.view.primary == w.service.view.primary then w.since else s.view.number)
  }

  ghost predicate IsRun(run: seq<World>, steps: seq<Step>) {
    && |run| == |steps| + 1 && Init(run[0])
    && forall i :: 0 <= i < |steps| ==> Next(run[i], steps[i], run[i + 1])
  }

  ghost predicate Known(w: World, v: View) {
    v.number in w.views && w.views[v.number] == v
  }

  /** A server's role is the one its view gives it, its view is one the service had, and an
      answer on its way is no older. */
  ghost predicate NodeOk(w: World, name: string) {
    name in w.nodes &&
    var n := w.nodes[name];
    && n.kv.me == name && n.kv.role == RoleIn(name, n.kv.view) && Known(w, n.kv.view)
    && (n.pinging.Waiting? ==> n.pinging.number == n.kv.view.number)
    && (n.pinging.Answered? ==> Known(w, n.pinging.view) && n.kv.view.number <= n.pinging.view.number)
  }

  ghost predicate NodesOk(w: World) {
    forall name <- w.nodes :: NodeOk(w, name)
  }

  /** All views from the beginning of the tenure on have the present primary. */
  ghost predicate ViewsOk(w: World) {
    && Known(w, w.service.view) && w.since <= w.service.view.number
    && forall k <- w.views ::
         && w.views[k].number == k <= w.service.view.number
         && (w.since <= k ==> w.views[k].primary == w.service.view.primary)
  }

  /** A ping sent carries a number its sender has reached. */
  ghost predicate PingsOk(w: World) {
    forall p <- w.pings :: p.0 in w.nodes && p.1 <= w.nodes[p.0].kv.view.number
  }

  /** A primary that counts as acked has seen a view of its tenure. */
  ghost predicate AckOk(w: World) {
    w.service.acked && w.service.view.primary != "" ==>
      w.service.view.primary in w.nodes && w.since <= w.nodes[w.service.view.primary].kv.view.number
  }

  ghost predicate Inv(w: World) {
    && Structured(w.service) && "" !in w.nodes
    && ViewsOk(w) && PingsOk(w) && AckOk(w) && NodesOk(w)
  }

  /** Servers that a step leaves alone stay in order while known views stay known. */
  lemma OthersStayOk(w: World, w': World, name: string)
    requires NodesOk(w) && w'.nodes.Keys == w.nodes.Keys
    requires forall n <- w.nodes :: n != name ==> w'.nodes[n] == w.nodes[n]
    requires forall v :: Known(w, v) ==> Known(w', v)
    requires name in w.nodes ==> NodeOk(w', name)
    ensures NodesOk(w')
  {
    forall n <- w'.nodes
      ensures NodeOk(w', n)
    {
      if n != name {
        assert NodeOk(w, n);
      }
    }
  }

  lemma SendKeepsInv(w: World, name: string, w': World)
    requires Inv(w) && Next(w, Send(name), w')
    ensures Inv(w')
  {
    assert NodeOk(w, name);
    OthersStayOk(w, w', name);
  }

  lemma ArriveKeepsInv(w: World, name: string, number: nat, now: int, answers: bool, w': World)
    requires Inv(w) && Next(w, Arrive(name, number, now, answers), w')
    ensures Inv(w')
  {
    StepStructured(w.service, Pinged(name, number, now), w'.service);
    assert (name, number).1 <= w.nodes[name].kv.view.number;
    assert NodeOk(w, name);
    OthersStayOk(w, w', name);
  }

  lemma ObserveFollows(kv: KV, v: View)
    requires kv.role == RoleIn(kv.me, kv.view) && (v.number == kv.view.number ==> v == kv.view)
    ensures
      var kv' := Observe(kv, v).0;
      kv'.me == kv.me && kv'.view == v && kv'.role == RoleIn(kv.me, v)
  {
  }

  /** Whatever view comes becomes the current one, and what the server stores, queues or copies
      stays; a number that is not new leaves its role too and starts nothing. */
  lemma ViewsKeepData(kv: KV, v: View)
    ensures
      var (kv', transfer) := Observe(kv, v);
      && kv'.view == v && kv'.me == kv.me
      && kv'.data == kv.data && kv'.queue == kv.queue && kv'.syncing == kv.syncing
      && (v.number == kv.view.number ==> kv'.role == kv.role && kv'.lastBackup == kv.lastBackup && !transfer)
  {
  }

  lemma ReceiveKeepsInv(w: World, name: string, w': World)
    requires Inv(w) && Next(w, Receive(name), w')
    ensures Inv(w')
  {
    assert NodeOk(w, name);
    ObserveFollows(w.nodes[name].kv, w.nodes[name].pinging.view);
    var kv := Observe(w.nodes[name].kv, w.nodes[name].pinging.view).0;
    assert w'.nodes[name] == Node(kv, Idle) && kv.view == w.nodes[name].pinging.view;
    assert NodeOk(w', name);
    OthersStayOk(w, w', name);
    assert PingsOk(w');
    assert AckOk(w');
  }

  lemma GiveUpKeepsInv(w: World, name: string, w': World)
    requires Inv(w) && Next(w, GiveUp(name), w')
    ensures Inv(w')
  {
    assert NodeOk(w, name);
    OthersStayOk(w, w', name);
  }

  lemma TickKeepsInv(w: World, now: int, order: seq<string>, order': seq<string>, w': World)
    requires Inv(w) && Next(w, TickService(now, order, order'), w')
    ensures Inv(w')
  {
    TickStructured(w.service, now, order, order');
    TickNumbers(w.service, now, order, order');
    TickAcks(w.service, now, order, order');
    OthersStayOk(w, w', "");
  }

  lemma StepKeepsInv(w: World, step: Step, w': World)
    requires Inv(w) && Next(w, step, w')
    ensures Inv(w')
  {
    match step {
      case Send(name) => SendKeepsInv(w, name, w');
      case Arrive(name, number, now, answers) => ArriveKeepsInv(w, name, number, now, answers, w');
      case GiveUp(name) => GiveUpKeepsInv(w, name, w');
      case Receive(name) => ReceiveKeepsInv(w, name, w');
      case TickService(now, order, order') => TickKeepsInv(w, now, order, order', w');
    }
  }

  lemma {:induction false} RunInv(run: seq<World>, steps: seq<Step>, i: nat)
    requires IsRun(run, steps) && i < |run|
    ensures Inv(run[i])
  {
    if i == 0 {
      assert forall name <- run[0].nodes :: NodeOk(run[0], name);
    } else {
      RunInv(run, steps, i - 1);
      StepKeepsInv(run[i - 1], steps[i - 1], run[i]);
    }
  }

  /** In every run each server's role is the one its current view gives it. */
  lemma RoleFollowsView(run: seq<World>, steps: seq<Step>, i: nat, name: string)
    requires IsRun(run, steps) && i < |run| && name in run[i].nodes
    ensures
      var kv := run[i].nodes[name].kv;
      && (kv.role == Primary <==> kv.view.primary == name)
      && (kv.role == Backup <==> kv.view.primary != name && kv.view.backup == name)
  {
    RunInv(run, steps, i);
    assert NodeOk(run[i], name);
  }

  /** A server answers a read, with the value it stores, exactly when its view names it primary
      and it stores one. */
  lemma OnlyPrimaryAnswers(run: seq<World>, steps: seq<Step>, i: nat, name: string, key: string, value: string)
    requires IsRun(run, steps) && i < |run| && name in run[i].nodes
    ensures
      var kv := run[i].nodes[name].kv;
      Read(kv, key) == Some(value) <==> kv.view.primary == name && key in kv.data && kv.data[key] == value
  {
    RoleFollowsView(run, steps, i, name);
  }

  /** A server takes a client's write exactly when its view names it primary, and a forwarded one
      exactly when its view names it backup; any other is refused and leaves it as it was. */
  lemma ViewDecidesWrites(run: seq<World>, steps: seq<Step>, i: nat, name: string, w: Write)
    requires IsRun(run, steps) && i < |run| && name in run[i].nodes
    ensures
      var kv := run[i].nodes[name].kv;
      var (put, outcome) := BeginPut(kv, w);
      var (forwarded, ok) := ForwardUpdate(kv, w);
      && (outcome.NotPrimary? <==> kv.view.primary != name)
      && (ok <==> kv.view.primary != name && kv.view.backup == name)
      && (outcome.NotPrimary? ==> put == kv) && (!ok ==> forwarded == kv)
      && (ok ==> w.key in forwarded.data && forwarded.data[w.key] == w.value)
  {
    RoleFollowsView(run, steps, i, name);
  }

  /** Two servers that both have role primary never hold the same view number. */
  lemma PrimariesDifferInView(run: seq<World>, steps: seq<Step>, i: nat, a: string, b: string)
    requires IsRun(run, steps) && i < |run| && a in run[i].nodes && b in run[i].nodes && a != b
    requires run[i].nodes[a].kv.role == Primary && run[i].nodes[b].kv.role == Primary
    ensures run[i].nodes[a].kv.view.number != run[i].nodes[b].kv.view.number
  {
    RunInv(run, steps, i);
    assert NodeOk(run[i], a) && NodeOk(run[i], b);
  }

  /** Whenever the current primary counts as acked, that server itself has role primary. */
  lemma AckedPrimaryLeads(run: seq<World>, steps: seq<Step>, i: nat)
    requires IsRun(run, steps) && i < |run|
    requires run[i].service.acked && run[i].service.view.primary != ""
    ensures run[i].service.view.primary in run[i].nodes
    ensures run[i].nodes[run[i].service.view.primary].kv.role == Primary
  {
    RunInv(run, steps, i);
    assert NodeOk(run[i], run[i].service.view.primary);
  }

  // ----- transfers -----

  /** In step `j` the server received this view, in which it is primary. */
  ghost predicate ReceivedAsPrimary(run: seq<World>, steps: seq<Step>, j: nat, name: string) {
    && j < |steps| && j < |run| && steps[j] == Receive(name) && name in run[j].nodes
    && run[j].nodes[name].pinging.Answered? && run[j].nodes[name].pinging.view.primary == name
  }

  ghost predicate NoneAsPrimary(run: seq<World>, steps: seq<Step>, from: int, i: nat, name: string) {
    forall j: nat :: from <= j < i ==> !ReceivedAsPrimary(run, steps, j, name)
  }

  /** The last view it received as primary before state `i` had this backup. */
  ghost predicate LastBackup(run: seq<World>, steps: seq<Step>, j: nat, i: nat, name: string, backup: string) {
    && j < i && ReceivedAsPrimary(run, steps, j, name) && run[j].nodes[name].pinging.view.backup == backup
    && NoneAsPrimary(run, steps, j + 1, i, name)
  }

  /** The server remembers the backup of the last view it received as primary. */
  ghost predicate Remembers(run: seq<World>, steps: seq<Step>, i: nat, name: string) {
    i < |run| && name in run[i].nodes &&
    if NoneAsPrimary(run, steps, 0, i, name) then run[i].nodes[name].kv.lastBackup == ""
    else exists j :: LastBackup(run, steps, j, i, name, run[i].nodes[name].kv.lastBackup)
  }

  ghost predicate KnowsBackup(w: World, name: string) {
    name in w.nodes &&
    var kv := w.nodes[name].kv;
    kv.role == Primary ==> kv.lastBackup == kv.view.backup
  }

  lemma StepRemembers(w: World, step: Step, w': World, name: string)
    requires Next(w, step, w') && name in w.nodes && step != Receive(name)
    ensures name in w'.nodes && w'.nodes[name].kv == w.nodes[name].kv
  {
  }

  /** What receiving a view does to the backup remembered; views with one number are the same. */
  lemma ReceiveRemembers(w: World, w': World, name: string)
    requires Inv(w) && Next(w, Receive(name), w')
    requires KnowsBackup(w, name)
    ensures KnowsBackup(w', name)
    ensures
      var kv, v, kv' := w.nodes[name].kv, w.nodes[name].pinging.view, w'.nodes[name].kv;
      && kv'.lastBackup == (if v.primary == name then v.backup else kv.lastBackup)
      && w'.transfers == w.transfers +
           (if v.primary == name && v.backup != "" && v.backup != kv.lastBackup then [Transfer(name, v.backup)] else [])
  {
    assert NodeOk(w, name);
    assert w.transfers + [] == w.transfers;
  }

  /** A step changes what a server remembers exactly when it receives a view as primary. */
  ghost predicate Learns(run: seq<World>, steps: seq<Step>, i: nat, name: string) {
    i + 1 < |run| && i < |steps| && name in run[i].nodes && name in run[i + 1].nodes &&
    var last, last' := run[i].nodes[name].kv.lastBackup, run[i + 1].nodes[name].kv.lastBackup;
    last' == if ReceivedAsPrimary(run, steps, i, name) then run[i].nodes[name].pinging.view.backup else last
  }

  lemma RunLearns(run: seq<World>, steps: seq<Step>, i: nat, name: string)
    requires IsRun(run, steps) && i < |steps| && KnowsBackup(run[i], name)
    ensures Learns(run, steps, i, name) && KnowsBackup(run[i + 1], name)
  {
    if steps[i] == Receive(name) {
      RunInv(run, steps, i);
      ReceiveRemembers(run[i], run[i + 1], name);
    } else {
      StepRemembers(run[i], steps[i], run[i + 1], name);
    }
  }

  lemma SameNodes(run: seq<World>, steps: seq<Step>, i: nat)
    requires IsRun(run, steps) && i < |steps|
    ensures run[i + 1].nodes.Keys == run[i].nodes.Keys
  {
    assert Next(run[i], steps[i], run[i + 1]);
  }

  lemma RemembersNext(run: seq<World>, steps: seq<Step>, i: nat, name: string)
    requires i + 1 < |run| == |steps| + 1 && Remembers(run, steps, i, name) && Learns(run, steps, i, name)
    ensures Remembers(run, steps, i + 1, name)
  {
    var last' := run[i + 1].nodes[name].kv.lastBackup;
    if ReceivedAsPrimary(run, steps, i, name) {
      assert LastBackup(run, steps, i, i + 1, name, last');
    } else if !NoneAsPrimary(run, steps, 0, i, name) {
      var j :| LastBackup(run, steps, j, i, name, last');
      assert LastBackup(run, steps, j, i + 1, name, last');
    }
  }

  lemma {:induction false} RunRemembers(run: seq<World>, steps: seq<Step>, i: nat, name: string)
    requires IsRun(run, steps) && i < |run| && name in run[i].nodes
    ensures Remembers(run, steps, i, name) && KnowsBackup(run[i], name)
  {
    if i > 0 {
      SameNodes(run, steps, i - 1);
      RunRemembers(run, steps, i - 1, name);
      RunLearns(run, steps, i - 1, name);
      RemembersNext(run, steps, i - 1, name);
    }
  }

  /** In every run, when a server receives a view it starts a transfer to the view's backup if and
      only if it is primary in the view, the backup is somebody, and the last view it received as
      primary, if any, had another backup or none. */
  lemma TransferStarts(run: seq<World>, steps: seq<Step>, i: nat, name: string)
    requires IsRun(run, steps) && i < |steps| && steps[i] == Receive(name)
    ensures name in run[i].nodes && run[i].nodes[name].pinging.Answered?
    ensures
      var v := run[i].nodes[name].pinging.view;
      var starts := v.primary == name && v.backup != "" && !exists j :: LastBackup(run, steps, j, i, name, v.backup);
      run[i + 1].transfers == if starts then run[i].transfers + [Transfer(name, v.backup)] else run[i].transfers
  {
    assert Next(run[i], steps[i], run[i + 1]);
    RunInv(run, steps, i);
    RunRemembers(run, steps, i, name);
    ReceiveRemembers(run[i], run[i + 1], name);
    LastIsOne(run, steps, i, name);
  }

  /** There is one last view. */
  lemma LastIsOne(run: seq<World>, steps: seq<Step>, i: nat, name: string)
    requires Remembers(run, steps, i, name)
    ensures forall j, backup :: LastBackup(run, steps, j, i, name, backup) ==>
      backup == run[i].nodes[name].kv.lastBackup
    ensures run[i].nodes[name].kv.lastBackup != "" ==>
      exists j :: LastBackup(run, steps, j, i, name, run[i].nodes[name].kv.lastBackup)
  {
    forall j, backup | LastBackup(run, steps, j, i, name, backup)
      ensures backup == run[i].nodes[name].kv.lastBackup
    {
      assert !NoneAsPrimary(run, steps, 0, i, name);
      var k :| LastBackup(run, steps, k, i, name, run[i].nodes[name].kv.lastBackup);
      assert j == k;
    }
  }

  /** No other step starts a transfer. */
  lemma OnlyReceiveStarts(run: seq<World>, steps: seq<Step>, i: nat)
    requires IsRun(run, steps) && i < |steps| && !steps[i].Receive?
    ensures run[i + 1].transfers == run[i].transfers
  {
    assert Next(run[i], steps[i], run[i + 1]);
  }
}
