// What every step of the Link Control Entity keeps, and what its larger steps achieve.
module LceInvariant {
  import opened Common
  import opened Lce

  // ----- Reference counts -----

  // How many of the transactions remember the buffer.
  function Remembering(ts: seq<Transaction>, mb: nat): nat {
    if ts == [] then 0 else (if ts[0].mb == Some(mb) then 1 else 0) + Remembering(ts[1..], mb)
  }

  function HoldersOf(l: Link, mb: nat): nat {
    multiset(l.queue)[mb] + Remembering(l.transactions, mb)
  }

  function Holders(links: seq<Link>, mb: nat): nat {
    if links == [] then 0 else HoldersOf(links[0], mb) + Holders(links[1..], mb)
  }

  function Count(bufs: map<nat, Buffer>, mb: nat): nat {
    if mb in bufs then bufs[mb].refcnt else 0
  }

  // Every buffer has as many references as queues and transactions that hold it and references that were
  // lost, and none is kept without.
  ghost predicate Counted(links: seq<Link>, bufs: map<nat, Buffer>, lost: multiset<nat>) {
    && (forall mb: nat :: Count(bufs, mb) == Holders(links, mb) + lost[mb])
    && (forall mb | mb in bufs :: bufs[mb].refcnt > 0)
  }

  lemma {:induction false} RememberingJoin(a: seq<Transaction>, b: seq<Transaction>, mb: nat)
    ensures Remembering(a + b, mb) == Remembering(a, mb) + Remembering(b, mb)
  {
    if a == [] {
      assert a + b == b;
    } else {
      RememberingJoin(a[1..], b, mb);
      assert (a + b)[1..] == a[1..] + b;
    }
  }

  lemma RememberingAt(ts: seq<Transaction>, i: nat, mb: nat)
    requires i < |ts|
    ensures Remembering(ts, mb) == Remembering(Without(ts, i), mb) + (if ts[i].mb == Some(mb) then 1 else 0)
    ensures forall t :: Remembering(ts[i := t], mb) == Remembering(Without(ts, i), mb) + (if t.mb == Some(mb) then 1 else 0)
  {
    RememberingJoin(ts[..i], ts[i + 1..], mb);
    forall t
      ensures Remembering(ts[i := t], mb) == Remembering(Without(ts, i), mb) + (if t.mb == Some(mb) then 1 else 0)
    {
      RememberingJoin(ts[..i], [t] + ts[i + 1..], mb);
      assert ts[i := t] == ts[..i] + ([t] + ts[i + 1..]);
      assert ([t] + ts[i + 1..])[1..] == ts[i + 1..];
    }
    assert ts[i := ts[i]] == ts;
  }

  lemma RememberingInsert(ts: seq<Transaction>, t: Transaction, mb: nat)
    requires t.mb.None?
    ensures Remembering(Insert(ts, t), mb) == Remembering(ts, mb)
  {
    if t.pd == MM {
      if ts != [] && ts[|ts| - 1].pd == MM {
        var a, last := ts[..|ts| - 1], ts[|ts| - 1];
        RememberingJoin(a, [last], mb);
        RememberingJoin(a, [t, last], mb);
        assert ts == a + [last];
        assert [t, last][1..] == [last];
      } else {
        RememberingJoin(ts, [t], mb);
      }
    } else {
      RememberingJoin([t], ts, mb);
    }
  }

  lemma {:induction false} RememberingMoved(ts: seq<Transaction>, link: nat, mb: nat)
    ensures Remembering(Moved(ts, link), mb) == Remembering(ts, mb)
  {
    if ts != [] {
      RememberingMoved(ts[1..], link, mb);
      assert Moved(ts, link)[1..] == Moved(ts[1..], link);
    }
  }

  lemma {:induction false} HoldersJoin(a: seq<Link>, b: seq<Link>, mb: nat)
    ensures Holders(a + b, mb) == Holders(a, mb) + Holders(b, mb)
  {
    if a == [] {
      assert a + b == b;
    } else {
      HoldersJoin(a[1..], b, mb);
      assert (a + b)[1..] == a[1..] + b;
    }
  }

  function Dropped(links: seq<Link>, k: nat): seq<Link>
    requires k < |links|
  {
    links[..k] + links[k + 1..]
  }

  lemma HoldersAt(links: seq<Link>, k: nat, l: Link, mb: nat)
    requires k < |links|
    ensures Holders(links[k := l], mb) == Holders(Dropped(links, k), mb) + HoldersOf(l, mb)
  {
    hide HoldersOf;
    HoldersJoin(links[..k], links[k + 1..], mb);
    HoldersJoin(links[..k], [l] + links[k + 1..], mb);
    assert links[k := l] == links[..k] + ([l] + links[k + 1..]);
    assert ([l] + links[k + 1..])[1..] == links[k + 1..];
  }

  lemma HoldersWithout(links: seq<Link>, k: nat, mb: nat)
    requires k < |links|
    ensures Holders(links, mb) == Holders(Dropped(links, k), mb) + HoldersOf(links[k], mb)
  {
    hide HoldersOf;
    HoldersAt(links, k, links[k], mb);
    assert links[k := links[k]] == links;
  }

  lemma FreeCount(bufs: map<nat, Buffer>, mb: nat, x: nat)
    requires forall b | b in bufs :: bufs[b].refcnt > 0
    requires mb in bufs
    ensures Count(Free(bufs, mb), x) == Count(bufs, x) - (if x == mb then 1 else 0)
    ensures forall b | b in Free(bufs, mb) :: Free(bufs, mb)[b].refcnt > 0 && b in bufs && bufs[b].msg == Free(bufs, mb)[b].msg
  {}

  lemma {:induction false} FreeAllCount(bufs: map<nat, Buffer>, q: seq<nat>)
    requires forall b | b in bufs :: bufs[b].refcnt > 0
    requires forall x: nat :: multiset(q)[x] <= Count(bufs, x)
    ensures forall x: nat :: Count(FreeAll(bufs, q), x) == Count(bufs, x) - multiset(q)[x]
    ensures forall b | b in FreeAll(bufs, q) :: FreeAll(bufs, q)[b].refcnt > 0 && b in bufs
  {
    if q != [] {
      assert q == [q[0]] + q[1..];
      assert multiset(q) == multiset{q[0]} + multiset(q[1..]);
      assert multiset(q)[q[0]] <= Count(bufs, q[0]);
      var after := Free(bufs, q[0]);
      forall x: nat
        ensures Count(after, x) == Count(bufs, x) - (if x == q[0] then 1 else 0)
      {
        FreeCount(bufs, q[0], x);
      }
      hide Free;
      FreeCount(bufs, q[0], 0);
      FreeAllCount(after, q[1..]);
    }
  }

  // ----- The invariant -----

  predicate LinkOk(l: Link, next: nat) {
    && l.id < next
    && (l.state == ESTABLISHED || l.state == RELEASE_PENDING ==> l.queue == [])
    && (forall t | t in l.transactions ::
          t.link == l.id && Registered(t.pd) && t.tv < MaxTransactions(t.pd) && t.born < next)
  }

  ghost predicate LinksOk(links: seq<Link>, next: nat) {
    && (forall k | 0 <= k < |links| :: LinkOk(links[k], next))
    && (forall j, k | 0 <= j < k < |links| :: links[j].id != links[k].id)
  }

  ghost predicate Inv(w: World) {
    Counted(w.links, w.bufs, w.lost) && LinksOk(w.links, w.next) && forall b | b in w.bufs :: b < w.next
  }

  // A buffer exists exactly as long as something holds it or a reference to it was lost, so it is freed by its
  // last holder unless one was.
  lemma FreedWithLastHolder(w: World, mb: nat)
    requires Inv(w)
    ensures mb in w.bufs <==> Holders(w.links, mb) + w.lost[mb] > 0
    ensures mb in w.bufs ==> w.bufs[mb].refcnt == Holders(w.links, mb) + w.lost[mb]
  {
    assert Count(w.bufs, mb) == Holders(w.links, mb) + w.lost[mb];
  }

  lemma CountedUpdate(links: seq<Link>, bufs: map<nat, Buffer>, lost: multiset<nat>, k: nat, l: Link, after: map<nat, Buffer>)
    requires Counted(links, bufs, lost) && k < |links|
    requires forall b | b in after :: after[b].refcnt > 0
    requires forall mb: nat :: Count(after, mb) + HoldersOf(links[k], mb) == Count(bufs, mb) + HoldersOf(l, mb)
    ensures Counted(links[k := l], after, lost)
  {
    hide HoldersOf, Holders, Count;
    forall mb: nat
      ensures Count(after, mb) == Holders(links[k := l], mb) + lost[mb]
    {
      HoldersAt(links, k, l, mb);
      HoldersWithout(links, k, mb);
      assert Count(bufs, mb) == Holders(links, mb) + lost[mb];
      assert Count(after, mb) + HoldersOf(links[k], mb) == Count(bufs, mb) + HoldersOf(l, mb);
    }
  }

  lemma LinksUpdate(links: seq<Link>, next: nat, k: nat, l: Link, after: nat)
    requires LinksOk(links, next) && k < |links| && next <= after
    requires LinkOk(l, after) && l.id == links[k].id
    ensures LinksOk(links[k := l], after)
  {}

  // What one link and one buffer change amount to.
  lemma Changed(w: World, k: nat, l: Link, after: map<nat, Buffer>, next: nat)
    requires Inv(w) && k < |w.links| && w.next <= next
    requires LinkOk(l, next) && l.id == w.links[k].id
    requires forall b | b in after :: after[b].refcnt > 0 && b < next
    requires forall mb: nat :: Count(after, mb) + HoldersOf(w.links[k], mb) == Count(w.bufs, mb) + HoldersOf(l, mb)
    ensures Counted(w.links[k := l], after, w.lost) && LinksOk(w.links[k := l], next) && forall b | b in after :: b < next
  {
    CountedUpdate(w.links, w.bufs, w.lost, k, l, after);
    hide Counted, HoldersOf, Count, LinkOk;
    assert LinksOk(w.links[k := l], next) by {
      LinksUpdate(w.links, w.next, k, l, next);
    }
  }

  lemma HeldByLink(w: World, k: nat, mb: nat)
    requires Inv(w) && k < |w.links|
    ensures HoldersOf(w.links[k], mb) <= Count(w.bufs, mb)
  {
    HoldersWithout(w.links, k, mb);
  }

  lemma HeldByTransaction(w: World, k: nat, i: nat)
    requires Inv(w) && k < |w.links| && i < |w.links[k].transactions|
    ensures w.links[k].transactions[i].mb.Some? ==> w.links[k].transactions[i].mb.value in w.bufs
  {
    var mb := w.links[k].transactions[i].mb;
    if mb.Some? {
      RememberingAt(w.links[k].transactions, i, mb.value);
      HeldByLink(w, k, mb.value);
    }
  }

  lemma FreeIfCount(bufs: map<nat, Buffer>, mb: Option<nat>)
    requires forall b | b in bufs :: bufs[b].refcnt > 0
    requires mb.Some? ==> mb.value in bufs
    ensures forall x: nat :: Count(FreeIf(bufs, mb), x) == Count(bufs, x) - (if mb == Some(x) then 1 else 0)
    ensures forall b | b in FreeIf(bufs, mb) :: FreeIf(bufs, mb)[b].refcnt > 0 && b in bufs
  {
    if mb.Some? {
      forall x: nat
        ensures Count(FreeIf(bufs, mb), x) == Count(bufs, x) - (if mb == Some(x) then 1 else 0)
      {
        FreeCount(bufs, mb.value, x);
      }
      FreeCount(bufs, mb.value, 0);
    }
  }

  // ----- Every step keeps it -----

  lemma EstablishInv(w: World, how: Origin)
    requires Inv(w)
    ensures Inv(Establish(w, how))
  {
    var v := Establish(w, how);
    var l := v.links[|w.links|];
    forall mb: nat
      ensures Count(v.bufs, mb) == Holders(v.links, mb) + v.lost[mb]
    {
      HoldersJoin(w.links, [l], mb);
      assert [l][1..] == [] && multiset(l.queue)[mb] == 0;
    }
    hide Holders, Count;
  }

  lemma LinkInInv(w: World, k: nat, pd: nat, tv: nat, role: Role)
    requires Inv(w) && k < |w.links| && Registered(pd) && tv < MaxTransactions(pd)
    ensures Inv(LinkIn(w, k, pd, tv, role))
  {
    hide Registered, MaxTransactions, Count, Holders, Remembering, Insert, Counted;
    var l := w.links[k];
    var t := Transaction(pd, role, tv, l.id, None, w.next);
    var m := l.(transactions := Insert(l.transactions, t));
    forall mb: nat
      ensures Count(w.bufs, mb) + HoldersOf(l, mb) == Count(w.bufs, mb) + HoldersOf(m, mb)
    {
      RememberingInsert(l.transactions, t, mb);
    }
    assert forall u | u in m.transactions :: u in l.transactions || u == t by {
      InsertHolds(l.transactions, t);
    }
    assert forall b | b in w.bufs :: w.bufs[b].refcnt > 0 by {
      CountedPositive(w);
    }
    hide HoldersOf;
    Changed(w, k, m, w.bufs, w.next + 1);
  }

  lemma CountedPositive(w: World)
    requires Inv(w)
    ensures forall b | b in w.bufs :: w.bufs[b].refcnt > 0
  {}

  lemma InsertHolds(ts: seq<Transaction>, t: Transaction)
    ensures forall u :: u in Insert(ts, t) <==> u in ts || u == t
  {
    if t.pd == MM && ts != [] {
      assert ts == ts[..|ts| - 1] + [ts[|ts| - 1]];
    }
  }

  // Setting the timer or the state of a link.
  lemma RelabelInv(w: World, k: nat, timer: Timer, state: LinkState)
    requires Inv(w) && k < |w.links|
    requires state == RELEASED || state == w.links[k].state || w.links[k].queue == []
    ensures Inv(SetLink(w, k, w.links[k].(timer := timer, state := state)))
  {
    hide Count, Holders, Remembering, Counted;
    CountedPositive(w);
    var l := w.links[k].(timer := timer, state := state);
    assert forall mb: nat :: HoldersOf(w.links[k], mb) == HoldersOf(l, mb);
    hide HoldersOf;
    Changed(w, k, l, w.bufs, w.next);
  }

  // Timers hold nothing.
  lemma TimersInv(w: World, k: nat, paging: bool, releases: nat)
    requires Inv(w) && k < |w.links|
    ensures Inv(SetLink(w, k, w.links[k].(paging := paging, releases := releases)))
  {
    hide Count, Holders, Remembering, Counted;
    CountedPositive(w);
    var l := w.links[k].(paging := paging, releases := releases);
    assert forall mb: nat :: HoldersOf(w.links[k], mb) == HoldersOf(l, mb);
    hide HoldersOf;
    Changed(w, k, l, w.bufs, w.next);
  }

  lemma ReleaseInv(w: World, k: nat, refused: bool)
    requires Inv(w) && k < |w.links| && w.links[k].queue == [] && Release(w, k, refused).Done?
    ensures Inv(Release(w, k, refused).w)
  {
    hide Inv;
    var l := w.links[k];
    if refused {
      DestroyInv(w, k);
    } else {
      RelabelInv(w, k, l.timer, RELEASE_PENDING);
      var v := SetLink(w, k, l.(timer := l.timer, state := RELEASE_PENDING));
      TimersInv(v, k, l.paging, l.releases + 1);
      assert SetLink(v, k, v.links[k].(paging := l.paging, releases := l.releases + 1))
          == SetLink(w, k, l.(state := RELEASE_PENDING, releases := l.releases + 1));
    }
  }

  lemma DestroyInv(w: World, k: nat)
    requires Inv(w) && k < |w.links| && w.links[k].transactions == []
    ensures Inv(Destroy(w, k).w)
  {
    var l := w.links[k];
    CountedPositive(w);
    QueueHeld(w, k);
    FreeAllCount(w.bufs, l.queue);
    var v := Destroy(w, k).w;
    assert v.links == Dropped(w.links, k) && v.lost == w.lost && v.bufs == FreeAll(w.bufs, l.queue) && v.next == w.next;
    hide Destroy;
    assert Counted(v.links, v.bufs, v.lost) by {
      forall mb: nat
        ensures Count(v.bufs, mb) == Holders(v.links, mb) + v.lost[mb]
      {
        HoldersWithout(w.links, k, mb);
        CountIs(w, mb);
        assert Remembering(l.transactions, mb) == 0;
        hide Inv, Count, Holders, FreeAll, LinksOk;
      }
      hide Inv, Count, Holders, FreeAll, LinksOk, HoldersOf;
    }
    assert forall b | b in w.bufs :: b < w.next;
    hide Counted, Count, Holders, HoldersOf, FreeAll, LinkOk;
  }

  lemma UnlinkInv(w: World, k: nat, i: nat)
    requires Inv(w) && k < |w.links| && i < |w.links[k].transactions|
    ensures Inv(Unlink(w, k, i))
  {
    hide Registered, MaxTransactions, Count, Holders, Remembering, Counted, FreeIf;
    var l := w.links[k];
    var t := l.transactions[i];
    var m := l.(transactions := Without(l.transactions, i));
    CountedPositive(w);
    HeldByTransaction(w, k, i);
    FreeIfCount(w.bufs, t.mb);
    var after := FreeIf(w.bufs, t.mb);
    forall mb: nat
      ensures Count(after, mb) + HoldersOf(l, mb) == Count(w.bufs, mb) + HoldersOf(m, mb)
    {
      RememberingAt(l.transactions, i, mb);
    }
    hide HoldersOf;
    Changed(w, k, m, after, w.next);
  }

  lemma CloseInv(w: World, k: nat, i: nat, mode: ReleaseMode, refused: bool)
    requires Inv(w) && k < |w.links| && i < |w.links[k].transactions|
    requires Close(w, k, i, mode, refused).Done?
    ensures Inv(Close(w, k, i, mode, refused).w)
  {
    hide Inv, Unlink, SetLink, Release;
    UnlinkInv(w, k, i);
    var v := Unlink(w, k, i);
    UnlinkShape(w, k, i);
    var l := v.links[k];
    if l.transactions == [] {
      DestroyInv(v, k);
    }
    RelabelInv(v, k, Maintain, l.state);
    if l.state == ESTABLISHED || l.state == RELEASE_PENDING {
      QueueEmpty(v, k);
      if Release(v, k, refused).Done? {
        ReleaseInv(v, k, refused);
      }
    }
  }

  lemma QueueEmpty(w: World, k: nat)
    requires Inv(w) && k < |w.links| && (w.links[k].state == ESTABLISHED || w.links[k].state == RELEASE_PENDING)
    ensures w.links[k].queue == []
  {}

  lemma UnlinkShape(w: World, k: nat, i: nat)
    requires k < |w.links| && i < |w.links[k].transactions|
    ensures var v := Unlink(w, k, i); var l := w.links[k];
            |v.links| == |w.links| && v.links[k] == l.(transactions := Without(l.transactions, i))
  {}

  lemma SubmitInv(w: World, k: nat, i: nat, kind: nat, body: seq<nat>)
    requires Inv(w) && k < |w.links| && i < |w.links[k].transactions|
    ensures var v := Submit(w, k, i, kind, body);
            && LinksOk(v.links, v.next) && (forall b | b in v.bufs :: b < v.next && v.bufs[b].refcnt > 0)
            && w.next in v.bufs && v.bufs[w.next].refcnt == 2
            && forall mb: nat :: Count(v.bufs, mb) == Holders(v.links, mb) + v.lost[mb] + (if mb == w.next then 1 else 0)
  {
    hide Registered, MaxTransactions, Holders, Remembering, Counted, FreeIf;
    var v := Submit(w, k, i, kind, body);
    var l := w.links[k];
    var t := l.transactions[i];
    CountedPositive(w);
    HeldByTransaction(w, k, i);
    FreeIfCount(w.bufs, t.mb);
    assert LinksOk(v.links, v.next) by {
      LinksUpdate(w.links, w.next, k, v.links[k], v.next);
    }
    assert w.next !in w.bufs;
    forall mb: nat
      ensures Count(v.bufs, mb) == Holders(v.links, mb) + v.lost[mb] + (if mb == w.next then 1 else 0)
    {
      RememberingAt(l.transactions, i, mb);
      HoldersAt(w.links, k, v.links[k], mb);
      HoldersWithout(w.links, k, mb);
      CountIs(w, mb);
      hide LinksOk;
    }
  }

  lemma CountIs(w: World, mb: nat)
    requires Inv(w)
    ensures Count(w.bufs, mb) == Holders(w.links, mb) + w.lost[mb]
  {}

  // A buffer with one reference more than its holders is sent or queued, which restores the balance.
  lemma DispatchInv(w: World, k: nat, mb: nat)
    requires k < |w.links| && LinksOk(w.links, w.next) && (forall b | b in w.bufs :: b < w.next && w.bufs[b].refcnt > 0)
    requires mb in w.bufs
    requires forall x: nat :: Count(w.bufs, x) == Holders(w.links, x) + w.lost[x] + (if x == mb then 1 else 0)
    requires Dispatch(w, k, mb).Done?
    ensures Inv(Dispatch(w, k, mb).w)
  {
    var l := w.links[k];
    if l.state == ESTABLISHED {
      TransmitInv(w, l.id, mb);
    } else {
      QueueInv(w, k, mb);
    }
  }

  lemma TransmitInv(w: World, link: nat, mb: nat)
    requires LinksOk(w.links, w.next) && (forall b | b in w.bufs :: b < w.next && w.bufs[b].refcnt > 0) && mb in w.bufs
    requires forall x: nat :: Count(w.bufs, x) == Holders(w.links, x) + w.lost[x] + (if x == mb then 1 else 0)
    ensures Inv(Transmit(w, link, mb))
  {
    var v := Transmit(w, link, mb);
    forall x: nat
      ensures Count(v.bufs, x) == Holders(v.links, x) + v.lost[x]
    {
      FreeCount(w.bufs, mb, x);
      hide Holders, Free, LinksOk;
    }
    FreeCount(w.bufs, mb, 0);
    hide Holders, LinksOk, Count;
  }

  lemma QueueInv(w: World, k: nat, mb: nat)
    requires k < |w.links| && LinksOk(w.links, w.next) && (forall b | b in w.bufs :: b < w.next && w.bufs[b].refcnt > 0)
    requires w.links[k].state == ESTABLISH_PENDING
    requires forall x: nat :: Count(w.bufs, x) == Holders(w.links, x) + w.lost[x] + (if x == mb then 1 else 0)
    ensures Inv(SetLink(w, k, w.links[k].(queue := w.links[k].queue + [mb])))
  {
    hide Remembering;
    var l := w.links[k];
    var m := l.(queue := l.queue + [mb]);
    LinksUpdate(w.links, w.next, k, m, w.next);
    forall x: nat
      ensures Count(w.bufs, x) == Holders(w.links[k := m], x) + w.lost[x]
    {
      HoldersAt(w.links, k, m, x);
      HoldersWithout(w.links, k, x);
      hide LinksOk, Holders;
    }
    hide LinksOk, Holders, Count;
  }

  lemma SendInv(w: World, k: nat, i: nat, kind: nat, body: seq<nat>)
    requires Inv(w) && k < |w.links| && i < |w.links[k].transactions| && Send(w, k, i, kind, body).Done?
    ensures Inv(Send(w, k, i, kind, body).w)
  {
    SubmitInv(w, k, i, kind, body);
    hide Inv, Dispatch, LinksOk, Count, Holders;
    DispatchInv(Submit(w, k, i, kind, body), k, w.next);
  }

  lemma SendClInv(w: World, k: nat, pd: nat, kind: nat, body: seq<nat>)
    requires Inv(w) && k < |w.links| && SendCl(w, k, pd, kind, body).Done?
    ensures Inv(SendCl(w, k, pd, kind, body).w)
  {
    hide Dispatch, LinkOk, Holders;
    var msg := Message(Octet0(pd, TV_CONNECTIONLESS, INITIATOR), kind, body);
    var v := w.(bufs := w.bufs[w.next := Buffer(1, msg)], next := w.next + 1);
    assert LinksOk(v.links, v.next) by {
      Later(w.links, w.next);
    }
    assert w.next !in w.bufs;
    forall x: nat
      ensures Count(v.bufs, x) == Holders(v.links, x) + v.lost[x] + (if x == w.next then 1 else 0)
    {
      CountIs(w, x);
      hide Inv, LinksOk;
    }
    assert forall b | b in v.bufs :: b < v.next && v.bufs[b].refcnt > 0;
    hide Inv, LinksOk, Count;
    DispatchInv(v, k, w.next);
  }

  lemma ReplyInv(w: World, k: nat, pd: nat, tv: nat, kind: nat, body: seq<nat>)
    requires Inv(w) && k < |w.links| && Reply(w, k, pd, tv, kind, body).Done?
    ensures Inv(Reply(w, k, pd, tv, kind, body).w)
  {
    hide Dispatch, LinkOk, Holders;
    var msg := Message(Octet0(pd, tv, RESPONDER), kind, body);
    var v := w.(bufs := w.bufs[w.next := Buffer(2, msg)], next := w.next + 1, lost := w.lost + multiset{w.next});
    assert LinksOk(v.links, v.next) by {
      Later(w.links, w.next);
    }
    assert w.next !in w.bufs;
    forall x: nat
      ensures Count(v.bufs, x) == Holders(v.links, x) + v.lost[x] + (if x == w.next then 1 else 0)
    {
      CountIs(w, x);
      hide Inv, LinksOk;
    }
    assert forall b | b in v.bufs :: b < v.next && v.bufs[b].refcnt > 0;
    hide Inv, LinksOk, Count;
    DispatchInv(v, k, w.next);
  }

  lemma RejectInv(w: World, k: nat, pd: nat, tv: nat, kind: nat, body: seq<nat>, refused: bool)
    requires Inv(w) && k < |w.links| && w.links[k].state != ESTABLISH_PENDING
    requires Reject(w, k, pd, tv, kind, body, refused).Done?
    ensures Inv(Reject(w, k, pd, tv, kind, body, refused).w)
  {
    ReplyInv(w, k, pd, tv, kind, body);
    ReplyOutcome(w, k, pd, tv, kind, body);
    hide Inv, Reply, Release;
    var v := Reply(w, k, pd, tv, kind, body).w;
    QueueEmpty(v, k);
    ReleaseInv(v, k, refused);
  }

  lemma ReplyOutcome(w: World, k: nat, pd: nat, tv: nat, kind: nat, body: seq<nat>)
    requires k < |w.links|
    ensures var l := w.links[k]; var o := Reply(w, k, pd, tv, kind, body);
            && (o.Aborted? <==> l.state !in {ESTABLISHED, ESTABLISH_PENDING})
            && (o.Done? ==>
                  && o.w.lost == w.lost + multiset{w.next} && o.w.endpoints == w.endpoints && o.w.stale == w.stale
                  && o.w.links == (if l.state == ESTABLISHED then w.links else w.links[k := l.(queue := l.queue + [w.next])]))
  {
    hide Octet0;
  }

  lemma Later(links: seq<Link>, next: nat)
    requires LinksOk(links, next)
    ensures LinksOk(links, next + 1)
  {}

  lemma RetransmitInv(w: World, k: nat, i: nat)
    requires Inv(w) && k < |w.links| && i < |w.links[k].transactions|
    ensures Inv(Retransmit(w, k, i))
    ensures Retransmit(w, k, i).bufs == w.bufs && Retransmit(w, k, i).links == w.links
  {
    HeldByTransaction(w, k, i);
    CountedPositive(w);
    hide Inv;
  }

  // ----- Establishment -----

  // The messages of a queue as a link transmits them, in queue order.
  function Transcript(bufs: map<nat, Buffer>, link: nat, q: seq<nat>): seq<Sent> {
    seq(|q|, i requires 0 <= i < |q| => Sent(link, Text(bufs, q[i])))
  }

  // Flushing sends the queue once, first in first out, and gives up exactly its references.
  lemma {:induction false} FlushSends(w: World, link: nat, q: seq<nat>)
    requires forall b | b in w.bufs :: w.bufs[b].refcnt > 0
    requires forall x: nat :: multiset(q)[x] <= Count(w.bufs, x)
    ensures var v := Flush(w, link, q);
            && v.bufs == FreeAll(w.bufs, q)
            && v.sent == w.sent + Transcript(w.bufs, link, q)
    decreases |q|
  {
    hide Count, Free, Text;
    if q != [] {
      HeadFreed(w.bufs, q);
      HeadSent(w.bufs, link, q);
      FlushSends(Transmit(w, link, q[0]), link, q[1..]);
    }
  }

  lemma HeadFreed(bufs: map<nat, Buffer>, q: seq<nat>)
    requires forall b | b in bufs :: bufs[b].refcnt > 0
    requires forall x: nat :: multiset(q)[x] <= Count(bufs, x)
    requires q != []
    ensures forall b | b in Free(bufs, q[0]) :: Free(bufs, q[0])[b].refcnt > 0
    ensures forall x: nat :: multiset(q[1..])[x] <= Count(Free(bufs, q[0]), x)
  {
    assert q == [q[0]] + q[1..];
    assert multiset(q) == multiset{q[0]} + multiset(q[1..]);
    assert multiset(q)[q[0]] <= Count(bufs, q[0]);
    FreeCount(bufs, q[0], 0);
    forall x: nat
      ensures multiset(q[1..])[x] <= Count(Free(bufs, q[0]), x)
    {
      FreeCount(bufs, q[0], x);
      hide Free;
    }
  }

  lemma HeadSent(bufs: map<nat, Buffer>, link: nat, q: seq<nat>)
    requires forall x: nat :: multiset(q)[x] <= Count(bufs, x)
    requires q != []
    ensures Transcript(bufs, link, q) == [Sent(link, Text(bufs, q[0]))] + Transcript(Free(bufs, q[0]), link, q[1..])
  {
    hide Text, Free, Count;
    forall i | 0 <= i < |q| - 1
      ensures Text(Free(bufs, q[0]), q[1..][i]) == Text(bufs, q[i + 1])
    {
      StillThere(bufs, q, i + 1);
    }
  }

  // A buffer that waits later in the queue survives the first transmission.
  lemma StillThere(bufs: map<nat, Buffer>, q: seq<nat>, i: nat)
    requires 0 < i < |q|
    requires forall x: nat :: multiset(q)[x] <= Count(bufs, x)
    ensures q[i] in Free(bufs, q[0]) && Text(Free(bufs, q[0]), q[i]) == Text(bufs, q[i])
  {
    assert q == [q[0]] + q[1..];
    assert multiset(q) == multiset{q[0]} + multiset(q[1..]);
    assert q[i] in q[1..];
    assert multiset(q)[q[i]] <= Count(bufs, q[i]);
  }

  lemma QueueHeld(w: World, k: nat)
    requires Inv(w) && k < |w.links|
    ensures forall x: nat :: multiset(w.links[k].queue)[x] <= Count(w.bufs, x)
  {
    forall x: nat
      ensures multiset(w.links[k].queue)[x] <= Count(w.bufs, x)
    {
      HeldByLink(w, k, x);
    }
  }

  lemma DirectInv(w: World, k: nat)
    requires Inv(w) && k < |w.links|
    ensures Inv(CompleteDirect(w, k))
  {
    hide Remembering, Holders, Counted, Registered, MaxTransactions;
    var l := w.links[k];
    if l.state == ESTABLISH_PENDING {
      CountedPositive(w);
      QueueHeld(w, k);
      FlushSends(SetLink(w, k, l.(state := ESTABLISHED, queue := [])), l.id, l.queue);
      FreeAllCount(w.bufs, l.queue);
      hide Flush, FreeAll;
      var m := l.(state := ESTABLISHED, queue := []);
      var after := FreeAll(w.bufs, l.queue);
      forall mb: nat
        ensures Count(after, mb) + HoldersOf(l, mb) == Count(w.bufs, mb) + HoldersOf(m, mb)
      {}
      hide Count, HoldersOf;
      Changed(w, k, m, after, w.next);
    }
  }

  // Establishing a link we connected sends everything that waited, once and in order.
  lemma DirectSendsQueue(w: World, k: nat)
    requires Inv(w) && k < |w.links| && w.links[k].state == ESTABLISH_PENDING
    ensures var v := CompleteDirect(w, k); var l := w.links[k];
            && v.sent == w.sent + Transcript(w.bufs, l.id, l.queue)
            && v.links == w.links[k := l.(state := ESTABLISHED, queue := [])]
  {
    CountedPositive(w);
    QueueHeld(w, k);
    var l := w.links[k];
    FlushSends(SetLink(w, k, l.(state := ESTABLISHED, queue := [])), l.id, l.queue);
    hide Flush, FreeAll, Inv, Count;
  }

  // ----- Indirect establishment -----

  // The answered link once everything of the paging link has moved to it.
  function Joined(l: Link, req: Link): Link {
    var ts := l.transactions + Moved(req.transactions, l.id);
    l.(transactions := ts, timer := if ts == [] then Maintain else l.timer)
  }

  lemma IndirectShape(w: World, k: nat, r: nat)
    requires Inv(w) && k < |w.links| && r < |w.links| && k != r && w.links[r].paging
    ensures var o := CompleteIndirect(w, k, r);
            && o.Done?
            && o.w.links == Dropped(w.links[k := Joined(w.links[k], w.links[r])], r)
            && o.w.bufs == FreeAll(w.bufs, w.links[r].queue)
            && o.w.sent == w.sent + Transcript(w.bufs, w.links[k].id, w.links[r].queue)
            && o.w.next == w.next && o.w.lost == w.lost
            && o.w.endpoints == Rebind(Rebind(w.endpoints, w.links[r].id, Some(w.links[k].id)), w.links[r].id, None)
  {
    hide Moved, Counted, LinkOk, Rebind;
    var l, req := w.links[k], w.links[r];
    var v := w.(links := w.links[k := Joined(l, req)][r := req.(transactions := [], queue := [], paging := false)],
                endpoints := Rebind(w.endpoints, req.id, Some(l.id)));
    CountedPositive(w);
    QueueHeld(w, r);
    FlushSends(v, l.id, req.queue);
    var f := Flush(v, l.id, req.queue);
    assert CompleteIndirect(w, k, r) == Destroy(f, r);
    assert f.links[r].transactions == [] && f.links[r].queue == [];
    hide Inv, Flush, Transcript, Joined;
    assert Dropped(f.links, r) == Dropped(w.links[k := Joined(l, req)], r);
  }

  lemma JoinedOk(l: Link, req: Link, next: nat)
    requires LinkOk(l, next) && LinkOk(req, next)
    ensures LinkOk(Joined(l, req), next)
  {
    hide Registered, MaxTransactions;
    var moved := Moved(req.transactions, l.id);
    forall t | t in moved
      ensures t.link == l.id && Registered(t.pd) && t.tv < MaxTransactions(t.pd) && t.born < next
    {
      var i :| 0 <= i < |moved| && moved[i] == t;
      assert req.transactions[i] in req.transactions;
    }
  }

  lemma IndirectCount(w: World, k: nat, r: nat, mb: nat)
    requires Inv(w) && k < |w.links| && r < |w.links| && k != r
    ensures Holders(Dropped(w.links[k := Joined(w.links[k], w.links[r])], r), mb)
            == Holders(w.links, mb) - multiset(w.links[r].queue)[mb]
  {
    hide Inv, Holders;
    var l, req := w.links[k], w.links[r];
    HoldersAt(w.links, k, Joined(l, req), mb);
    HoldersWithout(w.links, k, mb);
    HoldersWithout(w.links[k := Joined(l, req)], r, mb);
    RememberingJoin(l.transactions, Moved(req.transactions, l.id), mb);
    RememberingMoved(req.transactions, l.id, mb);
    hide Remembering, Moved, Dropped;
  }

  lemma IndirectInv(w: World, k: nat, r: nat)
    requires Inv(w) && k < |w.links| && r < |w.links| && k != r && w.links[r].paging
    ensures Inv(CompleteIndirect(w, k, r).w)
  {
    IndirectShape(w, k, r);
    var l, req := w.links[k], w.links[r];
    var v := CompleteIndirect(w, k, r).w;
    hide CompleteIndirect, Transcript, Rebind, HoldersOf;
    JoinedOk(l, req, w.next);
    var links := w.links[k := Joined(l, req)];
    assert LinksOk(links, w.next) by {
      LinksUpdate(w.links, w.next, k, Joined(l, req), w.next);
    }
    hide LinkOk, Joined;
    assert LinksOk(v.links, v.next);
    CountedPositive(w);
    QueueHeld(w, r);
    FreeAllCount(w.bufs, req.queue);
    forall mb: nat
      ensures Count(v.bufs, mb) == Holders(v.links, mb) + v.lost[mb]
    {
      IndirectCount(w, k, r, mb);
      CountIs(w, mb);
      hide Inv, Count, Holders, Dropped, FreeAll, LinksOk;
    }
    hide Count, Holders, Dropped, FreeAll, LinksOk;
    assert forall b | b in w.bufs :: b < w.next;
  }
}
