/** The handlers of a key-value server of the primary/backup pair, as functions on its state.
    The class in KVServer.dfy runs them in place. */
module KeyValue {
  import opened Types
  import opened ViewService

  datatype Role = Unassigned | Primary | Backup

  datatype Write = Write(key: string, value: string)

  datatype KV = KV(
    me: string,
    view: View,
    data: Table,
    role: Role,
    lastBackup: string,
    syncing: bool,
    queue: seq<Write>)

  function Started(me: string): KV {
    KV(me, View(0, "", ""), map[], Unassigned, "", false, [])
  }

  function RoleIn(me: string, v: View): Role {
    if v.primary == me then Primary else if v.backup == me then Backup else Unassigned
  }

  /** The answer to a ping: a view with a new number sets the role, and a primary that sees a
      new backup starts a transfer to it (the flag). */
  function Observe(s: KV, v: View): (KV, bool) {
    if v.number == s.view.number then (s.(view := v), false)
    else
      var t := s.(view := v, role := RoleIn(s.me, v));
      if t.role != Primary then (t, false)
      else if v.backup != "" && v.backup != s.lastBackup then (t.(lastBackup := v.backup), true)
      else if v.backup == "" then (t.(lastBackup := ""), false)
      else (t, false)
  }

  datatype Outcome = NotPrimary | Queued | Proceed(backup: string)

  /** The first critical section of a Put. */
  function BeginPut(s: KV, w: Write): (KV, Outcome) {
    if s.role != Primary then (s, NotPrimary)
    else if s.syncing then (s.(queue := s.queue + [w]), Queued)
    else (s, Proceed(s.view.backup))
  }

  /** The last critical section of a Put; it does not look at the role again. */
  function FinishPut(s: KV, w: Write): KV {
    s.(data := s.data[w.key := w.value])
  }

  /** What a client reads: a value only from a primary that has one. */
  function Read(s: KV, key: string): Option<string> {
    if s.role == Primary && key in s.data then Some(s.data[key]) else None
  }

  function ForwardUpdate(s: KV, w: Write): (KV, bool) {
    if s.role == Backup then (FinishPut(s, w), true) else (s, false)
  }

  function SyncState(s: KV, data: Table): KV {
    s.(data := data)
  }

  function BeginTransfer(s: KV): KV {
    s.(syncing := true)
  }

  /** After the copy was sent: a failure leaves the queue; success hands it over to be put. */
  function EndTransfer(s: KV, ok: bool): (KV, seq<Write>) {
    if ok then (s.(syncing := false, queue := []), s.queue) else (s.(syncing := false), [])
  }

  /** A map overlaid with writes, first to last. */
  function Overlay(data: Table, writes: seq<Write>): Table
    decreases |writes|
  {
    if writes == [] then data else Overlay(data[writes[0].key := writes[0].value], writes[1..])
  }

  lemma {:induction false} OverlayAppend(data: Table, writes: seq<Write>, w: Write)
    ensures Overlay(data, writes + [w]) == Overlay(data, writes)[w.key := w.value]
    decreases |writes|
  {
    if writes == [] {
      assert Overlay(data, [w]) == Overlay(data[w.key := w.value], [w][1..]);
    } else {
      assert (writes + [w])[1..] == writes[1..] + [w];
      OverlayAppend(data[writes[0].key := writes[0].value], writes[1..], w);
    }
  }

  ghost predicate Untouched(writes: seq<Write>, key: string, from: nat) {
    forall j :: from <= j < |writes| ==> writes[j].key != key
  }

  /** A key that no write names keeps its value, or its absence. */
  lemma {:induction false} OverlayKeeps(data: Table, writes: seq<Write>, key: string)
    requires Untouched(writes, key, 0)
    ensures key in Overlay(data, writes) <==> key in data
    ensures key in data ==> Overlay(data, writes)[key] == data[key]
    decreases |writes|
  {
    if writes != [] {
      OverlayKeeps(data[writes[0].key := writes[0].value], writes[1..], key);
    }
  }

  /** A key that writes name holds the value of the last of them. */
  lemma {:induction false} OverlayTakesLast(data: Table, writes: seq<Write>, i: nat)
    requires i < |writes| && Untouched(writes, writes[i].key, i + 1)
    ensures writes[i].key in Overlay(data, writes) && Overlay(data, writes)[writes[i].key] == writes[i].value
    decreases |writes|
  {
    var data' := data[writes[0].key := writes[0].value];
    if i == 0 {
      OverlayKeeps(data', writes[1..], writes[0].key);
    } else {
      OverlayTakesLast(data', writes[1..], i - 1);
    }
  }
}
