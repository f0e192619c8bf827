/** The view service, as functions: it hands out numbered views of who is primary and who is
    backup. The class in ViewServer.dfy runs them in place. */
module ViewService {
  import opened Types

  /** An empty name means nobody. */
  datatype View = View(number: nat, primary: string, backup: string)

  datatype Info = Info(lastPing: int, alive: bool)

  datatype Service = Service(view: View, servers: map<string, Info>, idle: seq<string>, acked: bool)

  /** Milliseconds without a ping after which a server is declared dead. */
  const DEAD_INTERVAL := 1500

  const INITIAL: Service := Service(View(0, "", ""), map[], [], true)

  function Without(names: seq<string>, name: string): (r: seq<string>)
    ensures forall x :: x in r <==> x in names && x != name
    ensures |r| <= |names|
  {
    if names == [] then []
    else (if names[0] != name then [names[0]] else []) + Without(names[1..], name)
  }

  /** A ping makes its sender known and alive; a new sender without a role becomes idle. The
      primary acknowledges the current view by pinging with its number. */
  function Ping(s: Service, name: string, number: nat, now: int): Service {
    s.(servers := s.servers[name := Info(now, true)],
       idle := if name !in s.servers && name != s.view.primary && name != s.view.backup
               then s.idle + [name] else s.idle,
       acked := s.acked || (name == s.view.primary && number == s.view.number))
  }

  predicate Alive(s: Service, name: string) {
    name in s.servers && s.servers[name].alive
  }

  predicate Dead(s: Service, name: string) {
    name in s.servers && !s.servers[name].alive
  }

  function Aged(i: Info, now: int): Info {
    if now - i.lastPing > DEAD_INTERVAL then i.(alive := false) else i
  }

  // ----- the stages of a tick -----

  function MarkDead(s: Service, now: int): Service {
    s.(servers := map name | name in s.servers :: Aged(s.servers[name], now))
  }

  /** A dead primary that acknowledged its view is replaced by an alive backup, or removed when
      there is no backup; a dead backup leaves it in place. */
  function CheckPrimary(s: Service): Service {
    if s.view.primary != "" && Dead(s, s.view.primary) && s.acked then
      if s.view.backup != "" then
        if Alive(s, s.view.backup)
        then s.(view := View(s.view.number + 1, s.view.backup, ""), acked := false)
        else s
      else s.(view := View(s.view.number + 1, "", s.view.backup), acked := true)
    else s
  }

  function CheckBackup(s: Service): Service {
    if s.view.backup != "" && Dead(s, s.view.backup)
    then s.(view := View(s.view.number + 1, s.view.primary, ""))
    else s
  }

  /** The first alive server other than `except` in the order of a map iteration. */
  function FirstAlive(s: Service, order: seq<string>, except: string): (r: Option<string>)
    ensures r.Some? ==> Alive(s, r.value) && r.value != except && r.value in order
    ensures r.None? ==> forall name :: name in order && Alive(s, name) ==> name == except
  {
    if order == [] then None
    else if Alive(s, order[0]) && order[0] != except then Some(order[0])
    else FirstAlive(s, order[1..], except)
  }

  function AssignPrimary(s: Service, order: seq<string>): Service {
    if s.view.primary == "" && s.acked then
      match FirstAlive(s, order, s.view.backup)
      case None => s
      case Some(name) =>
        s.(view := View(s.view.number + 1, name, s.view.backup), acked := false, idle := Without(s.idle, name))
    else s
  }

  /** Assigning a backup leaves the acknowledged flag as it is. */
  function AssignBackup(s: Service, order: seq<string>): Service {
    if s.view.backup == "" && s.view.primary != "" && s.acked then
      match FirstAlive(s, order, s.view.primary)
      case None => s
      case Some(name) =>
        s.(view := View(s.view.number + 1, s.view.primary, name), idle := Without(s.idle, name))
    else s
  }

  /** One tick; `order` and `order'` are the orders in which the two assignment loops happen to
      visit the known servers. */
  function Tick(s: Service, now: int, order: seq<string>, order': seq<string>): Service {
    AssignBackup(AssignPrimary(CheckBackup(CheckPrimary(MarkDead(s, now))), order), order')
  }

  /** An order in which an iteration may visit the known servers. */
  predicate Visits(order: seq<string>, s: Service) {
    (forall name <- order :: name in s.servers) && (forall name <- s.servers :: name in order)
  }
}
