// The Link Control Entity as the source keeps it: link objects whose fields the operations update in
// place. Every operation is proved against the function of the same step, and never drops a reference
// to a buffer that is not there.
module LceMachine {
  import opened Common
  import opened Lce
  import opened LceInvariant
  import opened LceRuns

  class DataLink {
    const id: nat
    var state: LinkState
    var timer: Timer
    var queue: seq<nat>
    var transactions: seq<Transaction>
    var paging: bool
    var releases: nat

    constructor (id: nat, how: Origin)
      ensures Value() == Established(id, how)
    {
      this.id, queue, transactions, releases := id, [], [], 0;
      state := if how.Incoming? then ESTABLISHED else ESTABLISH_PENDING;
      timer := if how.Incoming? then Sdu else Stopped;
      paging := how.Paging?;
    }

    function Value(): Link
      reads this
    {
      Link(id, state, timer, queue, transactions, paging, releases)
    }

    method TransactionLookup(pd: nat, tv: nat, role: Role) returns (r: Option<nat>)
      ensures r == Lookup(transactions, pd, tv, role)
    {
      var i := 0;
      while i < |transactions|
        invariant i <= |transactions|
        invariant Lookup(transactions, pd, tv, role) == LookupFrom(transactions, pd, tv, role, i)
      {
        if transactions[i].pd == pd && transactions[i].tv == tv && transactions[i].role == role {
          return Some(i);
        }
        i := i + 1;
      }
      return None;
    }

    method AllocateTv(pd: nat) returns (r: Option<nat>)
      ensures r == AllocTv(transactions, pd)
    {
      hide Lookup;
      var tv := 0;
      while tv < MaxTransactions(pd)
        invariant tv <= MaxTransactions(pd)
        invariant AllocTv(transactions, pd) == AllocFrom(transactions, pd, tv)
      {
        var found := TransactionLookup(pd, tv, INITIATOR);
        if found.None? {
          return Some(tv);
        }
        tv := tv + 1;
      }
      return None;
    }

    method TransactionLink(t: Transaction)
      modifies this
      ensures Value() == old(Value()).(transactions := Insert(old(transactions), t))
    {
      if t.pd == MM {
        var n := |transactions|;
        if n > 0 && transactions[n - 1].pd == MM {
          transactions := transactions[..n - 1] + [t, transactions[n - 1]];
        } else {
          transactions := transactions + [t];
        }
      } else {
        transactions := [t] + transactions;
      }
    }
  }

  class Entity {
    var links: seq<DataLink>
    var bufs: map<nat, Buffer>
    var endpoints: seq<nat>
    var sent: seq<Sent>
    var next: nat
    // what was lost, for the model's sake
    var lost: multiset<nat>
    var stale: nat

    ghost predicate Valid()
      reads this
    {
      forall i, j | 0 <= i < j < |links| :: links[i] != links[j]
    }

    ghost function View(): (w: World)
      reads this, links
      ensures |w.links| == |links|
    {
      World(seq(|links|, i requires 0 <= i < |links| reads this, links => links[i].Value()),
            bufs, endpoints, sent, next, lost, stale)
    }

    constructor ()
      ensures Valid() && View() == EMPTY
    {
      links, bufs, endpoints, sent, next, lost, stale := [], map[], [], [], 0, multiset{}, 0;
    }

    method MbufFree(mb: nat)
      requires mb in bufs
      modifies this`bufs
      ensures bufs == Free(old(bufs), mb)
    {
      var n := bufs[mb].refcnt;
      if n > 1 {
        bufs := bufs[mb := bufs[mb].(refcnt := n - 1)];
      } else {
        bufs := bufs - {mb};
      }
    }

    method MbufHold(mb: nat)
      requires mb in bufs
      modifies this`bufs
      ensures bufs == Hold(old(bufs), mb)
    {
      bufs := bufs[mb := bufs[mb].(refcnt := bufs[mb].refcnt + 1)];
    }

    method SendNow(link: nat, mb: nat)
      requires mb in bufs
      modifies this`bufs, this`sent
      ensures View() == Transmit(old(View()), link, mb)
    {
      sent := sent + [Sent(link, bufs[mb].msg)];
      MbufFree(mb);
    }

    method EstablishLink(how: Origin)
      requires Valid() && Inv(View())
      modifies this
      ensures Valid() && View() == Establish(old(View()), how)
    {
      hide Established;
      var l := new DataLink(next, how);
      links := links + [l];
      next := next + 1;
    }

    method TransactionOpen(k: nat, pd: nat) returns (tv: Option<nat>)
      requires Valid() && k < |links|
      modifies this, links
      ensures Valid() && View() == Open(old(View()), k, pd)
      ensures tv == AllocTv(old(View()).links[k].transactions, pd)
    {
      hide AllocTv, Insert;
      tv := links[k].AllocateTv(pd);
      if tv.Some? {
        links[k].TransactionLink(Transaction(pd, INITIATOR, tv.value, links[k].id, None, next));
        next := next + 1;
      }
    }

    method Retransmission(k: nat, i: nat)
      requires Valid() && Inv(View()) && k < |links| && i < |links[k].transactions|
      modifies this
      ensures Valid() && View() == Retransmit(old(View()), k, i)
    {
      hide Inv;
      HeldByTransaction(View(), k, i);
      var t := links[k].transactions[i];
      if t.mb.Some? && links[k].state == ESTABLISHED {
        MbufHold(t.mb.value);
        SendNow(links[k].id, t.mb.value);
      }
    }

    // ptrlist_dequeue_head until the queue is empty, dropping each buffer.
    method DropQueue(k: nat)
      requires Valid() && k < |links|
      requires forall b | b in bufs :: bufs[b].refcnt > 0
      requires forall x: nat :: multiset(links[k].queue)[x] <= Count(bufs, x)
      modifies this`bufs, links[k]
      ensures Valid() && links[k].Value() == old(links[k].Value()).(queue := [])
      ensures bufs == FreeAll(old(bufs), old(links[k].queue))
    {
      hide Free, Count;
      ghost var was := links[k].queue;
      while links[k].queue != []
        invariant links == old(links) && Valid()
        invariant links[k].Value() == old(links[k].Value()).(queue := links[k].queue)
        invariant FreeAll(bufs, links[k].queue) == FreeAll(old(bufs), was)
        invariant forall b | b in bufs :: bufs[b].refcnt > 0
        invariant forall x: nat :: multiset(links[k].queue)[x] <= Count(bufs, x)
        decreases |links[k].queue|
      {
        HeadFreed(bufs, links[k].queue);
        HeadHeld(bufs, links[k].queue);
        var mb := links[k].queue[0];
        links[k].queue := links[k].queue[1..];
        MbufFree(mb);
      }
    }

    // The endpoint of the link an opening message arrived on: the first, or a new one.
    method EndpointFor(k: nat) returns (e: nat)
      requires Valid() && k < |links|
      modifies this`endpoints
      ensures Valid() && e < |endpoints| && endpoints[e] == links[k].id && links[k].id !in endpoints[..e]
      ensures View() == if links[k].id in old(endpoints) then old(View()) else Bind(old(View()), k)
    {
      e := 0;
      while e < |endpoints| && endpoints[e] != links[k].id
        invariant e <= |endpoints| && links[k].id !in endpoints[..e]
      {
        e := e + 1;
      }
      if e == |endpoints| {
        endpoints := endpoints + [links[k].id];
      }
    }

    // The rebind handler of MM: the first endpoint of the link moves, or goes.
    method RebindEndpoint(from: nat, to: Option<nat>)
      modifies this`endpoints
      ensures endpoints == Rebind(old(endpoints), from, to)
    {
      hide Rebind;
      var i := 0;
      while i < |endpoints| && endpoints[i] != from
        invariant i <= |endpoints| && endpoints == old(endpoints)
        invariant from !in endpoints[..i]
      {
        i := i + 1;
      }
      RebindAt(endpoints, i, from, to);
      if i < |endpoints| {
        if to.Some? {
          endpoints := endpoints[i := to.value];
        } else {
          endpoints := endpoints[..i] + endpoints[i + 1..];
        }
      }
    }

    method LinkDestroy(k: nat) returns (aborted: bool)
      requires Valid() && k < |links|
      requires forall b | b in bufs :: bufs[b].refcnt > 0
      requires forall x: nat :: multiset(links[k].queue)[x] <= Count(bufs, x)
      modifies this, links[k]
      ensures Valid() && aborted == Destroy(old(View()), k).Aborted?
      ensures if aborted then View() == old(View()) else View() == Destroy(old(View()), k).w
      ensures links == if aborted then old(links) else old(links)[..k] + old(links)[k + 1..]
    {
      hide Rebind, FreeAll, Count;
      if links[k].transactions != [] {
        return true;
      }
      RebindEndpoint(links[k].id, None);
      DropQueue(k);
      stale := stale + Strays(links[k].Value());
      links := links[..k] + links[k + 1..];
      return false;
    }

    method LinkRelease(k: nat, refused: bool) returns (aborted: bool)
      requires Valid() && Inv(View()) && k < |links|
      modifies this, links[k]
      ensures Valid() && aborted == Release(old(View()), k, refused).Aborted?
      ensures !aborted ==> View() == Release(old(View()), k, refused).w
      ensures |links| == |old(links)| ==> links == old(links)
    {
      hide Inv, Destroy, Count;
      CountedPositive(View());
      QueueHeld(View(), k);
      if refused {
        aborted := LinkDestroy(k);
      } else {
        links[k].state := RELEASE_PENDING;
        links[k].releases := links[k].releases + 1;
        aborted := false;
      }
    }

    method UnlinkTransaction(k: nat, i: nat)
      requires Valid() && Inv(View()) && k < |links| && i < |links[k].transactions|
      modifies this`bufs, links[k]
      ensures Valid() && View() == Unlink(old(View()), k, i)
    {
      hide Inv, Free;
      HeldByTransaction(View(), k, i);
      var t := links[k].transactions[i];
      links[k].transactions := links[k].transactions[..i] + links[k].transactions[i + 1..];
      if t.mb.Some? {
        MbufFree(t.mb.value);
      }
    }

    method TransactionClose(k: nat, i: nat, mode: ReleaseMode, refused: bool) returns (aborted: bool)
      requires Valid() && Inv(View()) && k < |links| && i < |links[k].transactions|
      modifies this, links[k]
      ensures Valid() && aborted == Close(old(View()), k, i, mode, refused).Aborted?
      ensures !aborted ==> View() == Close(old(View()), k, i, mode, refused).w
      ensures |links| == |old(links)| ==> links == old(links)
    {
      hide Inv, Unlink, Destroy, Release;
      ghost var w := View();
      UnlinkInv(w, k, i);
      UnlinkShape(w, k, i);
      var pd := links[k].transactions[i].pd;
      UnlinkTransaction(k, i);
      CountedPositive(View());
      QueueHeld(View(), k);
      hide Count;
      if links[k].state == ESTABLISH_PENDING || (links[k].state == RELEASED && links[k].transactions == []) {
        if pd == CC || pd == COMS {
          aborted := LinkDestroy(k);
          return;
        }
        return false;
      }
      match mode
      case NORMAL =>
        if links[k].transactions != [] {
          return false;
        }
        aborted := LinkRelease(k, refused);
      case PARTIAL =>
        links[k].timer := Maintain;
        return false;
    }

    method DispatchBuffer(k: nat, mb: nat) returns (aborted: bool)
      requires Valid() && k < |links| && mb in bufs
      modifies this`bufs, this`sent, links[k]
      ensures Valid() && aborted == Dispatch(old(View()), k, mb).Aborted?
      ensures !aborted ==> View() == Dispatch(old(View()), k, mb).w
    {
      match links[k].state
      case ESTABLISHED =>
        SendNow(links[k].id, mb);
        return false;
      case ESTABLISH_PENDING =>
        links[k].queue := links[k].queue + [mb];
        return false;
      case _ =>
        return true;
    }

    method SendMessage(k: nat, i: nat, kind: nat, body: seq<nat>) returns (aborted: bool)
      requires Valid() && Inv(View()) && k < |links| && i < |links[k].transactions|
      modifies this, links[k]
      ensures Valid() && aborted == Send(old(View()), k, i, kind, body).Aborted?
      ensures !aborted ==> View() == Send(old(View()), k, i, kind, body).w
    {
      hide Inv, Dispatch, Free;
      HeldByTransaction(View(), k, i);
      var t := links[k].transactions[i];
      var mb := next;
      next := next + 1;
      links[k].timer := Stopped;
      if t.mb.Some? {
        MbufFree(t.mb.value);
      }
      bufs := bufs[mb := Buffer(1, Message(Octet0(t.pd, t.tv, t.role), kind, body))];
      links[k].transactions := links[k].transactions[i := t.(mb := Some(mb))];
      MbufHold(mb);
      assert View() == Submit(old(View()), k, i, kind, body);
      aborted := DispatchBuffer(k, mb);
    }

    method ReceiveMessage(k: nat, octet0: nat, how: Opening) returns (aborted: bool)
      requires Valid() && Inv(View()) && k < |links|
      modifies this, links
      ensures Valid() && aborted == Arrive(old(View()), k, octet0, how).Aborted?
      ensures !aborted ==> View() == Arrive(old(View()), k, octet0, how).w
    {
      hide Lookup, Inv, Insert, Reply, Reject;
      var f := octet0 / 128 % 2 == 1;
      var tv := octet0 / 16 % 8;
      var pd := octet0 % 16;
      if !Registered(pd) {
        return false;
      }
      if tv >= MaxTransactions(pd) {
        return false;
      }
      ghost var w := View();
      StoppedInv(w, k);
      links[k].timer := Stopped;
      assert View().links == w.links[k := w.links[k].(timer := Stopped)];
      hide Opened;
      if pd == CLMS && tv == TV_CONNECTIONLESS {
        return false;
      }
      aborted := Deliver(k, pd, tv, if f then INITIATOR else RESPONDER, how);
    }

    // To the transaction, or to the protocol if there is none.
    method Deliver(k: nat, pd: nat, tv: nat, role: Role, how: Opening) returns (aborted: bool)
      requires Valid() && Inv(View()) && k < |links|
      modifies this, links
      ensures var w := old(View()); var unknown := Lookup(w.links[k].transactions, pd, tv, role).None?;
              && Valid() && aborted == (unknown && Opened(w, k, pd, tv, how).Aborted?)
              && (!aborted ==> View() == if unknown then Opened(w, k, pd, tv, how).w else w)
    {
      hide Inv, Lookup, Opened;
      var ta := links[k].TransactionLookup(pd, tv, role);
      if ta.Some? {
        return false;
      }
      aborted := OpenTransaction(k, pd, tv, how);
    }

    // What the protocol's open handler does.
    method OpenTransaction(k: nat, pd: nat, tv: nat, how: Opening) returns (aborted: bool)
      requires Valid() && Inv(View()) && k < |links|
      modifies this, links[k]
      ensures Valid() && aborted == Opened(old(View()), k, pd, tv, how).Aborted?
      ensures !aborted ==> View() == Opened(old(View()), k, pd, tv, how).w
    {
      hide Inv, Insert, Reply, Release;
      match how
      case Takes =>
        links[k].TransactionLink(Transaction(pd, RESPONDER, tv, links[k].id, None, next));
        next := next + 1;
        return false;
      case Declines =>
        return false;
      case Answers(kind, body) =>
        aborted := SendReply(k, pd, tv, kind, body);
      case Rejects(kind, body, refused) =>
        ghost var w := View();
        aborted := SendReply(k, pd, tv, kind, body);
        if !aborted {
          ReplyInv(w, k, pd, tv, kind, body);
          aborted := LinkRelease(k, refused);
        }
      case Lacks =>
        return true;
    }

    // dect_lce_send on a transaction of the caller's, which then goes out of scope.
    method SendReply(k: nat, pd: nat, tv: nat, kind: nat, body: seq<nat>) returns (aborted: bool)
      requires Valid() && k < |links|
      modifies this`bufs, this`sent, this`next, this`lost, links[k]
      ensures Valid() && aborted == Reply(old(View()), k, pd, tv, kind, body).Aborted?
      ensures !aborted ==> View() == Reply(old(View()), k, pd, tv, kind, body).w
    {
      hide Dispatch;
      var mb := next;
      next := next + 1;
      bufs := bufs[mb := Buffer(1, Message(Octet0(pd, tv, RESPONDER), kind, body))];
      MbufHold(mb);
      lost := lost + multiset{mb};
      assert bufs == old(bufs)[mb := Buffer(2, Message(Octet0(pd, tv, RESPONDER), kind, body))];
      assert View() == old(View()).(bufs := bufs, next := next, lost := lost);
      aborted := DispatchBuffer(k, mb);
    }

    method SendConnectionless(k: nat, pd: nat, kind: nat, body: seq<nat>) returns (aborted: bool)
      requires Valid() && k < |links|
      modifies this, links[k]
      ensures Valid() && aborted == SendCl(old(View()), k, pd, kind, body).Aborted?
      ensures !aborted ==> View() == SendCl(old(View()), k, pd, kind, body).w
    {
      hide Dispatch;
      var mb := next;
      next := next + 1;
      bufs := bufs[mb := Buffer(1, Message(Octet0(pd, TV_CONNECTIONLESS, INITIATOR), kind, body))];
      assert View() == old(View()).(bufs := bufs, next := next);
      aborted := DispatchBuffer(k, mb);
    }

    // Dequeue and transmit on a link until nothing waits on from.
    method SendQueue(from: nat, link: nat)
      requires Valid() && from < |links|
      requires forall b | b in bufs :: bufs[b].refcnt > 0
      requires forall x: nat :: multiset(links[from].queue)[x] <= Count(bufs, x)
      modifies this`bufs, this`sent, links[from]
      ensures Valid() && links[from].Value() == old(links[from].Value()).(queue := [])
      ensures var w := Flush(old(View()), link, old(links[from].queue)); bufs == w.bufs && sent == w.sent
    {
      hide Free, Count, Text;
      ghost var was := links[from].queue;
      ghost var w := View();
      while links[from].queue != []
        invariant links == old(links) && Valid() && endpoints == old(endpoints) && next == old(next)
        invariant lost == old(lost) && stale == old(stale)
        invariant links[from].Value() == old(links[from].Value()).(queue := links[from].queue)
        invariant Flush(w.(bufs := bufs, sent := sent), link, links[from].queue) == Flush(w, link, was)
        invariant forall b | b in bufs :: bufs[b].refcnt > 0
        invariant forall x: nat :: multiset(links[from].queue)[x] <= Count(bufs, x)
        decreases |links[from].queue|
      {
        HeadFreed(bufs, links[from].queue);
        HeadHeld(bufs, links[from].queue);
        var mb := links[from].queue[0];
        links[from].queue := links[from].queue[1..];
        SendNow(link, mb);
      }
    }

    method DirectEstablished(k: nat)
      requires Valid() && Inv(View()) && k < |links|
      modifies this, links[k]
      ensures Valid() && View() == CompleteDirect(old(View()), k)
    {
      hide Inv;
      if links[k].state == ESTABLISH_PENDING {
        CountedPositive(View());
        QueueHeld(View(), k);
        hide Count;
        links[k].state := ESTABLISHED;
        ghost var w := View();
        ghost var q := links[k].queue;
        SendQueue(k, links[k].id);
        ghost var v := SetLink(old(View()), k, old(View()).links[k].(state := ESTABLISHED, queue := []));
        FlushSame(w, v, links[k].id, q);
        hide Flush;
        assert View().links == v.links;
        assert View() == Flush(v, links[k].id, q);
      }
    }

    // Move the transactions of one link behind those of another, one at a time.
    method Transfer(req: DataLink, ddl: DataLink)
      requires req != ddl
      modifies req, ddl
      ensures req.Value() == old(req.Value()).(transactions := [])
      ensures ddl.Value() == old(ddl.Value()).(
                transactions := old(ddl.transactions) + Moved(old(req.transactions), ddl.id))
    {
      ghost var all := Moved(req.transactions, ddl.id);
      ghost var i := 0;
      while req.transactions != []
        invariant i + |req.transactions| == |all|
        invariant req.transactions == old(req.transactions)[i..]
        invariant ddl.transactions == old(ddl.transactions) + all[..i]
        invariant req.Value() == old(req.Value()).(transactions := req.transactions)
        invariant ddl.Value() == old(ddl.Value()).(transactions := ddl.transactions)
        decreases |req.transactions|
      {
        var t := req.transactions[0];
        req.transactions := req.transactions[1..];
        ddl.transactions := ddl.transactions + [t.(link := ddl.id)];
        assert all[..i + 1] == all[..i] + [t.(link := ddl.id)];
        i := i + 1;
      }
      assert all[..i] == all;
    }

    method MoveWork(k: nat, r: nat)
      requires Valid() && Inv(View()) && k < |links| && r < |links| && k != r
      modifies this, links[k], links[r]
      ensures Valid() && links == old(links) && View() == Relinked(old(View()), k, r)
      ensures forall b | b in bufs :: bufs[b].refcnt > 0
    {
      hide Inv, Rebind, Moved, FreeAll, Transcript;
      ghost var w := View();
      CountedPositive(w);
      QueueHeld(w, r);
      FreeAllCount(bufs, links[r].queue);
      FlushSends(w, links[k].id, links[r].queue);
      hide Count, Flush;
      RebindEndpoint(links[r].id, Some(links[k].id));
      Transfer(links[r], links[k]);
      ghost var q := links[r].queue;
      ghost var v := View();
      SendQueue(r, links[k].id);
      FlushSame(v, w, links[k].id, q);
      assert View().links == Relinked(w, k, r).links;
    }

    method IndirectEstablished(k: nat, r: nat) returns (aborted: bool)
      requires Valid() && Inv(View()) && k < |links| && r < |links| && k != r
      modifies this, links[k], links[r]
      ensures Valid() && aborted == CompleteIndirect(old(View()), k, r).Aborted?
      ensures !aborted ==> CompleteIndirect(old(View()), k, r) == Done(View())
    {
      hide Inv, CompleteIndirect, Finished;
      ghost var w := View();
      if !links[r].paging {
        return true;
      }
      TimersInv(w, r, false, links[r].releases);
      FinishedIs(w, k, r);
      links[r].paging := false;
      assert View().links == Unpaged(w, r).links;
      FinishIndirect(k, r);
      return false;
    }

    // Once the page timer is stopped.
    method FinishIndirect(k: nat, r: nat)
      requires Valid() && Inv(View()) && k < |links| && r < |links| && k != r
      modifies this, links[k], links[r]
      ensures Valid() && View() == Finished(old(View()), k, r)
    {
      hide Inv, FreeAll, Transcript, Destroy, Rebind, Moved, Joined, Strays;
      ghost var w := View();
      var ddl := links[k];
      MoveWork(k, r);
      RelinkedShape(w, k, r, Joined(w.links[k], w.links[r]));
      DestroyEmpty(View(), r);
      hide Relinked, Count;
      var aborted := LinkDestroy(r);
      ghost var at := if r < k then k - 1 else k;
      assert links[at] == ddl;
      ghost var v := View();
      if ddl.transactions == [] {
        ddl.timer := Maintain;
      }
      assert View().links == v.links[at := ddl.Value()];
      JoinedIs(w.links[k], w.links[r]);
      assert ddl.Value() == Joined(w.links[k], w.links[r]);
    }

    // Every handler closes its transaction; closing the last one may destroy the link.
    method LinkShutdown(k: nat, modes: seq<ReleaseMode>)
      requires Valid() && Inv(View()) && k < |links| && |modes| == |links[k].transactions|
      modifies this, links[k]
      ensures Valid() && Shutdown(old(View()), k, modes) == Done(View())
    {
      hide Inv, Destroy, Close;
      ghost var w := View();
      DownInv(w, k);
      ShutdownInv(w, k, modes);
      links[k].state := RELEASED;
      links[k].paging := false;
      assert View() == Down(w, k);
      if links[k].transactions == [] {
        CountedPositive(View());
        QueueHeld(View(), k);
        hide Count;
        var aborted := LinkDestroy(k);
        return;
      }
      var i := 0;
      var last := false;
      while !last
        invariant Valid() && i <= |modes|
        invariant last ==> Shutdown(w, k, modes) == Done(View())
        invariant !last ==> links == old(links) && i < |modes| && Inv(View())
        invariant !last ==> links[k].state == RELEASED && |links[k].transactions| == |modes| - i
        invariant !last ==> Shutdown(w, k, modes) == CloseAll(View(), k, modes[i..])
        decreases !last, |modes| - i
      {
        last := |links[k].transactions| == 1;
        CloseDown(View(), k, modes[i]);
        CloseInv(View(), k, 0, modes[i], false);
        assert modes[i..][1..] == modes[i + 1..];
        var aborted := TransactionClose(k, 0, modes[i], false);
        i := i + 1;
      }
    }

    method TimerEvent(k: nat) returns (aborted: bool)
      requires Valid() && Inv(View()) && k < |links|
      modifies this, links[k]
      ensures Valid() && aborted == TimerExpires(old(View()), k).Aborted?
      ensures !aborted ==> View() == TimerExpires(old(View()), k).w
    {
      CountedPositive(View());
      QueueHeld(View(), k);
      hide Inv, Destroy, Count;
      DestroyOutcome(View(), k);
      match links[k].timer
      case Stopped =>
        return false;
      case Sdu =>
        aborted := LinkDestroy(k);
      case Maintain =>
        if links[k].transactions == [] {
          aborted := LinkDestroy(k);
        } else {
          links[k].timer := Stopped;
          return false;
        }
    }
  }

  // Everything of link r moved to link k, which has sent what waited.
  function Relinked(w: World, k: nat, r: nat): World
    requires k < |w.links| && r < |w.links| && k != r
  {
    var l, req := w.links[k], w.links[r];
    w.(links := w.links[k := l.(transactions := l.transactions + Moved(req.transactions, l.id))]
                       [r := req.(transactions := [], queue := [])],
       endpoints := Rebind(w.endpoints, req.id, Some(l.id)),
       bufs := FreeAll(w.bufs, req.queue), sent := w.sent + Transcript(w.bufs, l.id, req.queue))
  }

  lemma RelinkedShape(w: World, k: nat, r: nat, m: Link)
    requires k < |w.links| && r < |w.links| && k != r
    ensures var v := Relinked(w, k, r); var l := w.links[k]; var at := if r < k then k - 1 else k;
            && |v.links| == |w.links|
            && v.links[k] == l.(transactions := l.transactions + Moved(w.links[r].transactions, l.id))
            && v.links[r].transactions == [] && v.links[r].queue == [] && v.links[r].id == w.links[r].id
            && Dropped(v.links, r)[at := m] == Dropped(w.links[k := m], r)
            && Strays(v.links[r]) == Strays(w.links[r])
            && v == w.(links := v.links, bufs := FreeAll(w.bufs, w.links[r].queue),
                       sent := w.sent + Transcript(w.bufs, l.id, w.links[r].queue),
                       endpoints := Rebind(w.endpoints, w.links[r].id, Some(l.id)))
  {}

  lemma DestroyEmpty(w: World, k: nat)
    requires k < |w.links| && w.links[k].transactions == [] && w.links[k].queue == []
    ensures Destroy(w, k) == Done(w.(links := Dropped(w.links, k), endpoints := Rebind(w.endpoints, w.links[k].id, None),
                                     stale := w.stale + Strays(w.links[k])))
  {}

  lemma StoppedInv(w: World, k: nat)
    requires Inv(w) && k < |w.links|
    ensures Inv(SetLink(w, k, w.links[k].(timer := Stopped)))
  {
    hide Inv;
    var l := w.links[k];
    RelabelInv(w, k, Stopped, l.state);
    assert l.(timer := Stopped, state := l.state) == l.(timer := Stopped);
  }

  function Unpaged(w: World, r: nat): World
    requires r < |w.links|
  {
    SetLink(w, r, w.links[r].(paging := false, releases := w.links[r].releases))
  }

  // What an indirect establishment leaves.
  function Finished(w: World, k: nat, r: nat): World
    requires k < |w.links| && r < |w.links| && k != r
  {
    var l, req := w.links[k], w.links[r];
    w.(links := Dropped(w.links[k := Joined(l, req)], r), bufs := FreeAll(w.bufs, req.queue),
       sent := w.sent + Transcript(w.bufs, l.id, req.queue),
       endpoints := Rebind(Rebind(w.endpoints, req.id, Some(l.id)), req.id, None), stale := w.stale + Strays(req))
  }

  lemma FinishedIs(w: World, k: nat, r: nat)
    requires Inv(w) && k < |w.links| && r < |w.links| && k != r && w.links[r].paging
    ensures CompleteIndirect(w, k, r) == Done(Finished(Unpaged(w, r), k, r))
  {
    IndirectShape(w, k, r);
    IndirectStale(w, k, r);
    hide CompleteIndirect, FreeAll, Transcript, Rebind, Moved;
    var v := Unpaged(w, r);
    assert Dropped(v.links[k := Joined(w.links[k], w.links[r])], r) == Dropped(w.links[k := Joined(w.links[k], w.links[r])], r);
  }

  lemma IndirectStale(w: World, k: nat, r: nat)
    requires k < |w.links| && r < |w.links| && k != r && w.links[r].paging
    ensures CompleteIndirect(w, k, r).Done? ==> CompleteIndirect(w, k, r).w.stale == w.stale + Strays(w.links[r].(paging := false))
  {
    hide Flush, FreeAll, Rebind, Moved;
  }

  lemma JoinedIs(l: Link, req: Link)
    ensures var ts := l.transactions + Moved(req.transactions, l.id);
            Joined(l, req) == l.(transactions := ts, timer := if ts == [] then Maintain else l.timer)
  {}

  lemma {:induction false} RebindAt(es: seq<nat>, i: nat, from: nat, to: Option<nat>)
    requires i <= |es| && from !in es[..i] && (i < |es| ==> es[i] == from)
    ensures Rebind(es, from, to) ==
            if i == |es| then es else es[..i] + (if to.Some? then [to.value] else []) + es[i + 1..]
  {
    if i > 0 {
      assert es[0] in es[..i] && es[1..][..i - 1] == es[..i][1..];
      RebindAt(es[1..], i - 1, from, to);
      hide Rebind;
    }
  }

  // What is transmitted does not depend on the links.
  lemma {:induction false} FlushSame(w: World, v: World, link: nat, q: seq<nat>)
    requires w.bufs == v.bufs && w.sent == v.sent
    ensures Flush(w, link, q).bufs == Flush(v, link, q).bufs && Flush(w, link, q).sent == Flush(v, link, q).sent
    decreases |q|
  {
    hide Free, Text;
    if q != [] {
      FlushSame(Transmit(w, link, q[0]), Transmit(v, link, q[0]), link, q[1..]);
    }
  }

  lemma HeadHeld(bufs: map<nat, Buffer>, q: seq<nat>)
    requires forall x: nat :: multiset(q)[x] <= Count(bufs, x)
    requires q != []
    ensures q[0] in bufs
  {
    assert multiset(q)[q[0]] <= Count(bufs, q[0]);
  }
}
