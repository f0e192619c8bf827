/** The key-value server as an object that its handlers update in place. */
module KVServer {
  import opened Types
  import opened ViewService
  import opened KeyValue

  class KVServer {
    const me: string
    var currentView: View
    var data: Table
    var role: Role
    var lastBackup: string
    var syncing: bool
    var pendingQueue: seq<Write>

    ghost function State(): KV
      reads this
    {
      KV(me, currentView, data, role, lastBackup, syncing, pendingQueue)
    }

    constructor (me: string)
      ensures State() == Started(me)
    {
      this.me := me;
      currentView, data, role := View(0, "", ""), map[], Unassigned;
      lastBackup, syncing, pendingQueue := "", false, [];
    }

    /** The second half of a ping, run with the view that the service answered. */
    method ReceiveView(view: View) returns (transfer: bool)
      modifies this
      ensures (State(), transfer) == Observe(old(State()), view)
    {
      var oldView := currentView;
      currentView := view;
      transfer := false;
      if oldView.number != currentView.number {
        transfer := HandleViewChange();
      }
    }

    method HandleViewChange() returns (transfer: bool)
      modifies this
      ensures role == RoleIn(me, currentView)
      ensures transfer <==> role == Primary && currentView.backup != "" && currentView.backup != old(lastBackup)
      ensures lastBackup == if role == Primary then currentView.backup else old(lastBackup)
      ensures currentView == old(currentView) && data == old(data) && syncing == old(syncing)
      ensures pendingQueue == old(pendingQueue)
    {
      if currentView.primary == me {
        role := Primary;
      } else if currentView.backup == me {
        role := Backup;
      } else {
        role := Unassigned;
      }
      transfer := false;
      if role == Primary {
        if currentView.backup != "" && currentView.backup != lastBackup {
          lastBackup := currentView.backup;
          transfer := true;
        } else if currentView.backup == "" {
          lastBackup := "";
        }
      }
    }

    method Get(key: string) returns (value: Option<string>, isPrimary: bool)
      ensures isPrimary <==> role == Primary
      ensures value == Read(State(), key)
    {
      if role != Primary {
        return None, false;
      }
      value := if key in data then Some(data[key]) else None;
      return value, true;
    }

    /** One Put run to its end: forwarded to the backup `peer` (which the forward reaches or
        not), then written locally whatever the forward did. */
    method Put(w: Write, peer: KVServer, delivered: bool) returns (ok: bool)
      requires peer != this
      modifies this, peer
      ensures ok <==> old(role) == Primary
      ensures State() ==
        (if BeginPut(old(State()), w).1.Proceed? then FinishPut(old(State()), w) else BeginPut(old(State()), w).0)
      ensures peer.State() == (if BeginPut(old(State()), w).1.Proceed? && old(currentView).backup != "" && delivered
                               then KeyValue.ForwardUpdate(old(peer.State()), w).0 else old(peer.State()))
    {
      if role != Primary {
        return false;
      }
      if syncing {
        pendingQueue := pendingQueue + [w];
        return true;
      }
      var backup := currentView.backup;
      if backup != "" && delivered {
        var _ := peer.ForwardUpdate(w);
      }
      data := data[w.key := w.value];
      return true;
    }

    method ForwardUpdate(w: Write) returns (ok: bool)
      modifies this
      ensures (State(), ok) == KeyValue.ForwardUpdate(old(State()), w)
    {
      if role != Backup {
        return false;
      }
      data := data[w.key := w.value];
      return true;
    }

    /** Overwrites the data, key by key in any order. */
    method SyncState(copy: Table)
      modifies this
      ensures State() == KeyValue.SyncState(old(State()), copy)
    {
      data := map[];
      var todo := copy.Keys;
      while todo != {}
        invariant todo <= copy.Keys
        invariant data == map k | k in copy.Keys - todo :: copy[k]
        invariant State() == old(State()).(data := data)
        decreases |todo|
      {
        var k :| k in todo;
        data := data[k := copy[k]];
        todo := todo - {k};
      }
    }

    /** A transfer to the backup `peer`, with the writes that arrive while it runs; `synced`
        tells whether the copy reached the peer. When this server is primary and the peer a
        backup, both end with the old data overlaid with every queued write in order of arrival;
        a peer in another role keeps the copy and refuses the queued writes.
        When the copy fails the writes stay queued and unapplied; a server that is no longer
        primary throws its queue away. */
    method TransferState(peer: KVServer, arrivals: seq<Write>, synced: bool)
      requires peer != this
      modifies this, peer
      ensures currentView == old(currentView) && role == old(role) && lastBackup == old(lastBackup) && !syncing
      ensures !synced ==> data == old(data) && peer.State() == old(peer.State())
      ensures !synced ==> pendingQueue == old(pendingQueue) + (if role == Primary then arrivals else [])
      ensures synced ==> pendingQueue == []
      ensures synced ==> data == if role == Primary then Overlay(old(data), old(pendingQueue) + arrivals) else old(data)
      ensures synced ==>
        peer.State() == old(peer.State()).(data :=
          if currentView.backup != "" && old(peer.role) == Backup then data else old(data))
    {
      syncing := true;
      var copy := data;
      ghost var start := State();
      for i := 0 to |arrivals|
        invariant State() == start.(queue := start.queue + (if role == Primary then arrivals[..i] else []))
        invariant peer.State() == old(peer.State())
      {
        var _ := Put(arrivals[i], peer, true);
        assert arrivals[..i + 1] == arrivals[..i] + [arrivals[i]];
      }
      assert arrivals[..|arrivals|] == arrivals;
      if !synced {
        syncing := false;
        return;
      }
      peer.SyncState(copy);
      syncing := false;
      FlushQueue(peer);
    }

    /** Empties the queue and puts each write in turn, forwarding it; a server that is not primary
        refuses them, and a peer that is not a backup refuses the forwards. */
    method FlushQueue(peer: KVServer)
      requires peer != this && !syncing
      modifies this, peer
      ensures State() == old(State()).(queue := [],
        data := if role == Primary then Overlay(old(data), old(pendingQueue)) else old(data))
      ensures peer.State() == old(peer.State()).(data :=
        if role == Primary && currentView.backup != "" && old(peer.role) == Backup
        then Overlay(old(peer.data), old(pendingQueue)) else old(peer.data))
    {
      var pending := pendingQueue;
      pendingQueue := [];
      ghost var start, start' := State(), peer.State();
      ghost var forwards := role == Primary && currentView.backup != "" && peer.role == Backup;
      for i := 0 to |pending|
        invariant State() == start.(data := if role == Primary then Overlay(start.data, pending[..i]) else start.data)
        invariant peer.State() == start'.(data := if forwards then Overlay(start'.data, pending[..i]) else start'.data)
      {
        OverlayAppend(start.data, pending[..i], pending[i]);
        OverlayAppend(start'.data, pending[..i], pending[i]);
        assert pending[..i + 1] == pending[..i] + [pending[i]];
        var _ := Put(pending[i], peer, true);
      }
      assert pending[..|pending|] == pending;
    }
  }
}
