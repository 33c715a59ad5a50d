// Established links that nobody uses: what their timers do with them, and which steps leave one that no timer will
// end.
module LceIdle {
  import opened Common
  import opened Lce
  import opened LceInvariant
  import opened LceRuns
  import LceOrder
  import opened LceTimers

  // ----- What the timers do -----

  lemma {:induction false} RebindRemoves(es: seq<nat>, id: nat)
    ensures multiset(Rebind(es, id, None)) == multiset(es) - multiset{id}
  {
    if es != [] {
      var e, rest := es[0], es[1..];
      assert es == [e] + rest;
      if e == id {
        assert Rebind(es, id, None) == rest;
      } else {
        RebindRemoves(rest, id);
        assert Rebind(es, id, None) == [e] + Rebind(rest, id, None);
      }
      hide Rebind;
    }
  }

  // The timers of a link that go on without it: the page timer, and every release timer but the last.
  function StillRunning(l: Link): nat {
    var page, releases := if l.paging then 1 else 0, l.releases;
    if releases == 0 then page else page + releases - 1
  }

  // A link without transactions is taken off the list, with its endpoint and its queue's references.
  ghost predicate Ends(w: World, k: nat, v: World)
    requires k < |w.links|
  {
    && v.links == w.links[..k] + w.links[k + 1..]
    && multiset(v.endpoints) == multiset(w.endpoints) - multiset{w.links[k].id}
    && GivenUp(w.bufs, w.links[k].queue, v.bufs)
    && v.sent == w.sent && v.next == w.next && v.lost == w.lost && v.stale == w.stale + StillRunning(w.links[k])
  }

  // The SDU timer and the maintain timer end a link that has no transactions. With transactions the first fails an
  // assertion, and after the second the link stays as it was, without a timer.
  lemma TimerEnds(w: World, k: nat)
    requires Inv(w) && k < |w.links|
    ensures var l := w.links[k]; var o := Step(w, OpTimer(k));
            if l.timer == Stopped then o == Done(w)
            else if l.transactions == [] then o.Done? && Ends(w, k, o.w)
            else if l.timer == Maintain then o == Done(w.(links := w.links[k := l.(timer := Stopped)]))
            else o.Aborted?
  {
    RebindRemoves(w.endpoints, w.links[k].id);
    QueueGivenUp(w, k);
    hide Inv, FreeAll, Rebind, GivenUp;
  }

  // So do the release timers: the last one, and one that a later one replaced, which then does not go on.
  lemma ReleaseTimersEnd(w: World, k: nat)
    requires Inv(w) && k < |w.links| && w.links[k].releases > 0 && w.links[k].transactions == []
    ensures var o := Step(w, OpReleased(k)); o.Done? && Ends(w, k, o.w)
    ensures w.links[k].releases > 1 ==> var o := Step(w, OpOverdue(k)); o.Done? && Ends(w, k, o.w.(stale := o.w.stale + 1))
  {
    RebindRemoves(w.endpoints, w.links[k].id);
    QueueGivenUp(w, k);
    hide Inv, FreeAll, Rebind, GivenUp;
  }

  lemma QueueGivenUp(w: World, k: nat)
    requires Inv(w) && k < |w.links|
    ensures GivenUp(w.bufs, w.links[k].queue, FreeAll(w.bufs, w.links[k].queue))
  {
    CountedPositive(w);
    QueueHeld(w, k);
    hide Inv, FreeAll, Count;
    FreeAllCount(w.bufs, w.links[k].queue);
  }

  // Every buffer loses a reference for each of its places in the queue.
  ghost predicate GivenUp(bufs: map<nat, Buffer>, q: seq<nat>, after: map<nat, Buffer>) {
    forall mb: nat :: Count(after, mb) == Count(bufs, mb) - multiset(q)[mb]
  }

  // ----- Idle links -----

  // Nothing uses the link and no timer will end it.
  predicate Idle(l: Link) {
    l.state == ESTABLISHED && l.transactions == [] && l.timer == Stopped
  }

  predicate NoneIdle(links: seq<Link>) {
    forall k | 0 <= k < |links| :: !Idle(links[k])
  }

  // The peer opens a link with a message that its protocol ignores or answers without a transaction, or a link
  // connects after the last transaction that was waiting for it has gone.
  predicate LeavesIdle(w: World, op: Op)
    requires Enabled(w, op)
  {
    match op
    case OpArrive(k, octet0, how) =>
      var l := w.links[k];
      l.state == ESTABLISHED && l.transactions == [] && Receive([], octet0).New? && (how.Declines? || how.Answers?)
    case OpDirect(k) =>
      var l := w.links[k]; l.state == ESTABLISH_PENDING && l.transactions == [] && l.timer == Stopped
    case _ => false
  }

  lemma IdleElsewhere(links: seq<Link>, k: nat, l: Link)
    requires NoneIdle(links) && k < |links|
    ensures !Idle(links[k]) && NoneIdle(Dropped(links, k))
    ensures !Idle(l) <==> NoneIdle(links[k := l])
  {
    assert links[k := l][k] == l;
  }

  lemma ArriveIdle(w: World, k: nat, octet0: nat, how: Opening)
    requires NoneIdle(w.links) && Enabled(w, OpArrive(k, octet0, how)) && Arrive(w, k, octet0, how).Done?
    ensures NoneIdle(Arrive(w, k, octet0, how).w.links) <==> !LeavesIdle(w, OpArrive(k, octet0, how))
  {
    var l := w.links[k];
    var m := l.(timer := Stopped);
    var v := SetLink(w, k, m);
    IdleElsewhere(w.links, k, m);
    LceOrder.ConnectionlessNeverReceived(l.transactions, octet0);
    hide Receive, Reply, Reject, Insert, NoneIdle;
    match Receive(l.transactions, octet0)
    case New(pd, tv) =>
      match how {
        case Takes =>
          InsertHolds(l.transactions, Transaction(pd, RESPONDER, tv, l.id, None, w.next));
          IdleElsewhere(w.links, k, LinkIn(v, k, pd, tv, RESPONDER).links[k]);
        case Answers(kind, body) => ReplyOutcome(v, k, pd, tv, kind, body);
        case Rejects(kind, body, refused) => RejectIdle(w, k, pd, tv, kind, body, refused);
        case _ =>
      }
    case _ =>
  }

  lemma RejectIdle(w: World, k: nat, pd: nat, tv: nat, kind: nat, body: seq<nat>, refused: bool)
    requires NoneIdle(w.links) && k < |w.links| && w.links[k].state != ESTABLISH_PENDING
    requires var v := SetLink(w, k, w.links[k].(timer := Stopped)); Reject(v, k, pd, tv, kind, body, refused).Done?
    ensures var v := SetLink(w, k, w.links[k].(timer := Stopped));
            NoneIdle(Reject(v, k, pd, tv, kind, body, refused).w.links)
  {
    var l := w.links[k].(timer := Stopped);
    var v := SetLink(w, k, l);
    ReplyOutcome(v, k, pd, tv, kind, body);
    IdleElsewhere(w.links, k, l.(state := RELEASE_PENDING, releases := l.releases + 1));
    hide Reply, NoneIdle, FreeAll, Rebind;
    assert Dropped(v.links, k) == Dropped(w.links, k);
    assert v.links[k := l.(state := RELEASE_PENDING, releases := l.releases + 1)] ==
           w.links[k := l.(state := RELEASE_PENDING, releases := l.releases + 1)];
  }

  lemma CloseIdle(w: World, k: nat, i: nat, mode: ReleaseMode, refused: bool)
    requires NoneIdle(w.links) && k < |w.links| && i < |w.links[k].transactions| && Close(w, k, i, mode, refused).Done?
    ensures NoneIdle(Close(w, k, i, mode, refused).w.links)
  {
    var l := w.links[k];
    var m := l.(transactions := Without(l.transactions, i));
    CloseShape(w, k, i, mode, refused);
    hide Close, Without, NoneIdle, Dropped;
    IdleElsewhere(w.links, k, m);
    IdleElsewhere(w.links, k, m.(timer := Maintain));
    IdleElsewhere(w.links, k, m.(state := RELEASE_PENDING, releases := m.releases + 1));
  }

  lemma {:induction false} CloseAllIdle(w: World, k: nat, modes: seq<ReleaseMode>)
    requires NoneIdle(w.links) && k < |w.links| && |modes| == |w.links[k].transactions| && w.links[k].state == RELEASED
    ensures CloseAll(w, k, modes).Done? ==> NoneIdle(CloseAll(w, k, modes).w.links)
    decreases |modes|
  {
    if |modes| > 0 {
      CloseDown(w, k, modes[0]);
      CloseIdle(w, k, 0, modes[0], false);
      hide Close, NoneIdle;
      if |modes| > 1 {
        CloseAllIdle(Close(w, k, 0, modes[0], false).w, k, modes[1..]);
      }
    }
  }

  lemma ShutdownIdle(w: World, k: nat, modes: seq<ReleaseMode>)
    requires NoneIdle(w.links) && k < |w.links| && |modes| == |w.links[k].transactions| && Shutdown(w, k, modes).Done?
    ensures NoneIdle(Shutdown(w, k, modes).w.links)
  {
    var l := w.links[k].(state := RELEASED, paging := false);
    IdleElsewhere(w.links, k, l);
    hide NoneIdle, CloseAll, FreeAll, Rebind;
    if modes == [] {
      assert Dropped(Down(w, k).links, k) == Dropped(w.links, k);
    } else {
      CloseAllIdle(Down(w, k), k, modes);
    }
  }

  lemma IndirectIdle(w: World, k: nat, r: nat)
    requires Inv(w) && NoneIdle(w.links) && Enabled(w, OpIndirect(k, r)) && w.links[r].paging
    ensures NoneIdle(CompleteIndirect(w, k, r).w.links)
  {
    IndirectShape(w, k, r);
    var l, req := w.links[k], w.links[r];
    hide Inv, CompleteIndirect, NoneIdle;
    JoinedIdle(l, req);
    IdleElsewhere(w.links, k, Joined(l, req));
    IdleElsewhere(w.links[k := Joined(l, req)], r, req);
  }

  lemma JoinedIdle(l: Link, req: Link)
    requires !Idle(l)
    ensures !Idle(Joined(l, req))
  {
    hide Moved;
  }

  lemma DirectIdle(w: World, k: nat)
    requires NoneIdle(w.links) && Enabled(w, OpDirect(k))
    ensures NoneIdle(CompleteDirect(w, k).links) <==> !LeavesIdle(w, OpDirect(k))
  {
    hide Flush;
    IdleElsewhere(w.links, k, w.links[k].(state := ESTABLISHED, queue := []));
    hide NoneIdle;
  }

  lemma DestroyIdle(w: World, k: nat)
    requires NoneIdle(w.links) && k < |w.links| && Destroy(w, k).Done?
    ensures NoneIdle(Destroy(w, k).w.links)
  {
    IdleElsewhere(w.links, k, w.links[k]);
    hide NoneIdle, FreeAll, Rebind;
    assert Destroy(w, k).w.links == Dropped(w.links, k);
  }

  lemma TimerIdle(w: World, k: nat)
    requires NoneIdle(w.links) && k < |w.links| && TimerExpires(w, k).Done?
    ensures NoneIdle(TimerExpires(w, k).w.links)
  {
    IdleElsewhere(w.links, k, w.links[k].(timer := Stopped));
    if Destroy(w, k).Done? {
      DestroyIdle(w, k);
    }
    hide Destroy, NoneIdle;
  }

  lemma OpenIdle(w: World, k: nat, pd: nat)
    requires NoneIdle(w.links) && k < |w.links|
    ensures NoneIdle(Open(w, k, pd).links)
  {
    hide AllocTv, Insert, NoneIdle;
    match AllocTv(w.links[k].transactions, pd)
    case None =>
    case Some(tv) =>
      var l := w.links[k];
      var t := Transaction(pd, INITIATOR, tv, l.id, None, w.next);
      InsertHolds(l.transactions, t);
      var m := l.(transactions := Insert(l.transactions, t));
      assert t in m.transactions;
      IdleElsewhere(w.links, k, m);
  }

  lemma SendIdle(w: World, k: nat, i: nat, kind: nat, body: seq<nat>)
    requires NoneIdle(w.links) && k < |w.links| && i < |w.links[k].transactions| && Send(w, k, i, kind, body).Done?
    ensures NoneIdle(Send(w, k, i, kind, body).w.links)
  {
    hide FreeIf, Free, NoneIdle;
    var l := w.links[k];
    var m := l.(timer := Stopped, transactions := l.transactions[i := l.transactions[i].(mb := Some(w.next))]);
    IdleElsewhere(w.links, k, m);
    IdleElsewhere(w.links[k := m], k, m.(queue := l.queue + [w.next]));
  }

  lemma SendClIdle(w: World, k: nat, pd: nat, kind: nat, body: seq<nat>)
    requires NoneIdle(w.links) && k < |w.links| && SendCl(w, k, pd, kind, body).Done?
    ensures NoneIdle(SendCl(w, k, pd, kind, body).w.links)
  {
    hide Free, NoneIdle;
    IdleElsewhere(w.links, k, w.links[k].(queue := w.links[k].queue + [w.next]));
  }

  // While every established link has a transaction or a timer, a step leaves it so exactly if it is none of those.
  lemma StepIdle(w: World, op: Op)
    requires Inv(w) && NoneIdle(w.links) && Enabled(w, op) && Step(w, op).Done?
    ensures NoneIdle(Step(w, op).w.links) <==> !LeavesIdle(w, op)
  {
    hide Inv, Arrive, Open, Close, Send, SendCl, CompleteIndirect, CompleteDirect, Destroy, Shutdown, TimerExpires;
    match op
    case OpOpen(k, pd) => OpenIdle(w, k, pd);
    case OpArrive(k, octet0, how) => ArriveIdle(w, k, octet0, how);
    case OpClose(k, i, mode, refused) => CloseIdle(w, k, i, mode, refused);
    case OpSend(k, i, kind, body) => SendIdle(w, k, i, kind, body);
    case OpSendCl(k, pd, kind, body) => SendClIdle(w, k, pd, kind, body);
    case OpRetransmit(k, i) => RetransmitInv(w, k, i);
    case OpDirect(k) => DirectIdle(w, k);
    case OpIndirect(k, r) => IndirectIdle(w, k, r);
    case OpTimer(k) => TimerIdle(w, k);
    case OpReleased(k) => DestroyIdle(w, k);
    case OpShutdown(k, modes) => ShutdownIdle(w, k, modes);
    case OpOverdue(k) => DestroyIdle(w, k);
    case _ =>
  }

  predicate NeverLeavesIdle(ops: seq<Op>) {
    ops == [] || (NeverLeavesIdle(ops[..|ops| - 1]) &&
                  match Run(ops[..|ops| - 1])
                  case Done(w) => Enabled(w, ops[|ops| - 1]) ==> !LeavesIdle(w, ops[|ops| - 1])
                  case Aborted => true)
  }

  // So on a run without them every established link is in use, or its timer will end it.
  lemma {:induction false} RunsUsed(ops: seq<Op>)
    requires NeverLeavesIdle(ops) && Run(ops).Done?
    ensures NoneIdle(Run(ops).w.links)
  {
    hide Inv, Step, LeavesIdle;
    if ops != [] {
      var before := ops[..|ops| - 1];
      RunsUsed(before);
      hide NoneIdle;
      ReachableInv(before);
      if Enabled(Run(before).w, ops[|ops| - 1]) {
        StepIdle(Run(before).w, ops[|ops| - 1]);
      }
    }
  }

  // One message that its protocol ignores, and the link stays, whatever time passes.
  lemma IgnoredLingers()
    ensures var o := Run([OpEstablish(Incoming), OpArrive(0, CC, Declines)]);
            o.Done? && |o.w.links| == 1 && Idle(o.w.links[0]) && Step(o.w, OpTimer(0)) == o
  {
    var a, b := OpEstablish(Incoming), OpArrive(0, CC, Declines);
    assert [a, b][..1] == [a] && [a][..0] == [];
    assert Run([]) == Done(EMPTY);
    assert Run([a]) == Done(Connected());
    hide Run;
    assert Receive([], CC) == New(CC, 0);
    hide Receive;
    RunStep([a, b], Connected());
  }
}
