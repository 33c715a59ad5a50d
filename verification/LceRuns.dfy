// Runs of the Link Control Entity: the invariant in every state they reach, exactly which steps
// abort, and the order and uniqueness of the transactions on a link.
module LceRuns {
  import opened Common
  import opened Lce
  import opened LceInvariant

  datatype Op =
    | OpEstablish(origin: Origin)
    | OpOpen(k: nat, pd: nat)
    | OpArrive(k: nat, octet0: nat, how: Opening)
    | OpClose(k: nat, i: nat, mode: ReleaseMode, refused: bool)
    | OpSend(k: nat, i: nat, kind: nat, body: seq<nat>)
    | OpSendCl(k: nat, pd: nat, kind: nat, body: seq<nat>)
    | OpRetransmit(k: nat, i: nat)
    | OpDirect(k: nat)
    | OpIndirect(k: nat, r: nat)
    | OpTimer(k: nat)
    | OpReleased(k: nat)
    | OpShutdown(k: nat, modes: seq<ReleaseMode>)
    | OpBind(k: nat)
    | OpUnbind(e: nat)
    | OpOverdue(k: nat)
    | OpStale

  // What the protocols do with a message of theirs that opens no transaction yet; supplementary and
  // connectionless services never answer.
  predicate Possible(pd: nat, how: Opening) {
    match how
    case Takes => pd == CC || pd == CISS || pd == MM
    case Declines => true
    case Answers(_, _) => pd == CC
    case Rejects(_, _, _) => pd == LCE
    case Lacks => pd == LCE
  }

  // The step speaks of links and transactions that exist, and of events that can happen to them: messages
  // arrive where there is a connection, and only links without a page timer connect by themselves.
  predicate Enabled(w: World, op: Op) {
    match op
    case OpEstablish(_) => true
    case OpOpen(k, pd) => k < |w.links| && pd in {LCE, CC, CISS, MM}
    case OpArrive(k, octet0, how) =>
      && k < |w.links| && w.links[k].state != ESTABLISH_PENDING
      && (match Receive(w.links[k].transactions, octet0) case New(pd, _) => Possible(pd, how) case _ => true)
    case OpClose(k, i, _, _) => k < |w.links| && i < |w.links[k].transactions|
    case OpSend(k, i, _, _) => k < |w.links| && i < |w.links[k].transactions|
    case OpSendCl(k, _, _, _) => k < |w.links|
    case OpRetransmit(k, i) => k < |w.links| && i < |w.links[k].transactions|
    case OpDirect(k) => k < |w.links| && !w.links[k].paging
    case OpIndirect(k, r) =>
      k < |w.links| && r < |w.links| && w.links[k].state in {ESTABLISHED, RELEASE_PENDING} && w.links[r].state == ESTABLISH_PENDING
    case OpTimer(k) => k < |w.links|
    case OpReleased(k) => k < |w.links| && w.links[k].releases > 0
    case OpShutdown(k, modes) => k < |w.links| && |modes| == |w.links[k].transactions|
    case OpBind(k) => k < |w.links|
    case OpUnbind(e) => e < |w.endpoints|
    case OpOverdue(k) => k < |w.links| && w.links[k].releases > 1
    case OpStale => w.stale > 0
  }

  function Step(w: World, op: Op): Outcome
    requires Enabled(w, op)
  {
    match op
    case OpEstablish(origin) => Done(Establish(w, origin))
    case OpOpen(k, pd) => Done(Open(w, k, pd))
    case OpArrive(k, octet0, how) => Arrive(w, k, octet0, how)
    case OpClose(k, i, mode, refused) => Close(w, k, i, mode, refused)
    case OpSend(k, i, kind, body) => Send(w, k, i, kind, body)
    case OpSendCl(k, pd, kind, body) => SendCl(w, k, pd, kind, body)
    case OpRetransmit(k, i) => Done(Retransmit(w, k, i))
    case OpDirect(k) => Done(CompleteDirect(w, k))
    case OpIndirect(k, r) => CompleteIndirect(w, k, r)
    case OpTimer(k) => TimerExpires(w, k)
    case OpReleased(k) => Destroy(w, k)
    case OpShutdown(k, modes) => Shutdown(w, k, modes)
    case OpBind(k) => Done(Bind(w, k))
    case OpUnbind(e) => Done(Unbind(w, e))
    case OpOverdue(k) => Overdue(w, k)
    case OpStale => Aborted
  }

  // A run leaves out what cannot happen and stops at the first abort.
  function Run(ops: seq<Op>): Outcome {
    if ops == [] then Done(EMPTY) else
      match Run(ops[..|ops| - 1])
      case Aborted => Aborted
      case Done(w) => if Enabled(w, ops[|ops| - 1]) then Step(w, ops[|ops| - 1]) else Done(w)
  }

  // ----- The invariant -----

  lemma OpenInv(w: World, k: nat, pd: nat)
    requires Inv(w) && k < |w.links| && Registered(pd)
    ensures Inv(Open(w, k, pd))
  {
    match AllocTv(w.links[k].transactions, pd)
    case None =>
    case Some(tv) => LinkInInv(w, k, pd, tv, INITIATOR);
  }

  lemma ArriveInv(w: World, k: nat, octet0: nat, how: Opening)
    requires Inv(w) && k < |w.links| && w.links[k].state != ESTABLISH_PENDING && Arrive(w, k, octet0, how).Done?
    ensures Inv(Arrive(w, k, octet0, how).w)
  {
    hide Inv;
    RelabelInv(w, k, Stopped, w.links[k].state);
    var l := w.links[k];
    assert l.(timer := Stopped, state := l.state) == l.(timer := Stopped);
    var v := SetLink(w, k, l.(timer := Stopped));
    hide Reply, Reject;
    match Receive(l.transactions, octet0)
    case New(pd, tv) =>
      match how {
        case Takes => LinkInInv(v, k, pd, tv, RESPONDER);
        case Answers(kind, body) => ReplyInv(v, k, pd, tv, kind, body);
        case Rejects(kind, body, refused) => RejectInv(v, k, pd, tv, kind, body, refused);
        case _ =>
      }
    case _ =>
  }

  lemma {:induction false} CloseAllInv(w: World, k: nat, modes: seq<ReleaseMode>)
    requires Inv(w) && k < |w.links| && |modes| == |w.links[k].transactions|
    requires w.links[k].state == RELEASED
    ensures CloseAll(w, k, modes).Done? && Inv(CloseAll(w, k, modes).w)
    decreases |modes|
  {
    if |modes| > 0 {
      CloseDown(w, k, modes[0]);
      CloseInv(w, k, 0, modes[0], false);
      if |modes| > 1 {
        CloseAllInv(Close(w, k, 0, modes[0], false).w, k, modes[1..]);
      }
    }
  }

  // Closing the first transaction of a link that is down.
  lemma CloseDown(w: World, k: nat, mode: ReleaseMode)
    requires k < |w.links| && w.links[k].transactions != [] && w.links[k].state == RELEASED
    ensures var l := w.links[k]; var o := Close(w, k, 0, mode, false);
            && o.Done?
            && (|l.transactions| > 1 || l.transactions[0].pd !in {CC, COMS} ==>
                  && |o.w.links| == |w.links|
                  && o.w.links[k] == l.(transactions := l.transactions[1..],
                                        timer := if |l.transactions| > 1 && mode == PARTIAL then Maintain else l.timer))
            && (|l.transactions| == 1 && l.transactions[0].pd in {CC, COMS} ==> o.w.links == Dropped(w.links, k))
  {
    assert Without(w.links[k].transactions, 0) == w.links[k].transactions[1..];
  }

  lemma DownInv(w: World, k: nat)
    requires Inv(w) && k < |w.links|
    ensures Inv(Down(w, k))
  {
    hide Inv;
    var l := w.links[k];
    RelabelInv(w, k, l.timer, RELEASED);
    var v := SetLink(w, k, l.(timer := l.timer, state := RELEASED));
    TimersInv(v, k, false, l.releases);
    assert SetLink(v, k, v.links[k].(paging := false, releases := l.releases)) == Down(w, k);
  }

  lemma ShutdownInv(w: World, k: nat, modes: seq<ReleaseMode>)
    requires Inv(w) && k < |w.links| && |modes| == |w.links[k].transactions|
    ensures Shutdown(w, k, modes).Done? && Inv(Shutdown(w, k, modes).w)
  {
    hide Inv, CloseAll, Destroy;
    var l := w.links[k];
    DownInv(w, k);
    if l.transactions == [] {
      assert Destroy(Down(w, k), k).Done? by {
        DestroyOutcome(Down(w, k), k);
      }
      DestroyInv(Down(w, k), k);
    } else {
      CloseAllInv(Down(w, k), k, modes);
    }
  }

  lemma DestroyOutcome(w: World, k: nat)
    requires k < |w.links|
    ensures Destroy(w, k).Aborted? <==> w.links[k].transactions != []
  {}

  lemma TimerInv(w: World, k: nat)
    requires Inv(w) && k < |w.links| && TimerExpires(w, k).Done?
    ensures Inv(TimerExpires(w, k).w)
  {
    hide Inv, Destroy;
    var l := w.links[k];
    RelabelInv(w, k, Stopped, l.state);
    DestroyOutcome(w, k);
    if l.transactions == [] {
      DestroyInv(w, k);
    }
  }

  lemma StepInv(w: World, op: Op)
    requires Inv(w) && Enabled(w, op) && Step(w, op).Done?
    ensures Inv(Step(w, op).w)
  {
    hide Inv, Establish, Open, Arrive, Close, Send, SendCl, Retransmit, CompleteDirect, CompleteIndirect;
    hide TimerExpires, Destroy, Shutdown, Receive;
    match op
    case OpEstablish(origin) => EstablishInv(w, origin);
    case OpOpen(k, pd) => OpenInv(w, k, pd);
    case OpArrive(k, octet0, how) => ArriveInv(w, k, octet0, how);
    case OpClose(k, i, mode, refused) => CloseInv(w, k, i, mode, refused);
    case OpSend(k, i, kind, body) => SendInv(w, k, i, kind, body);
    case OpSendCl(k, pd, kind, body) => SendClInv(w, k, pd, kind, body);
    case OpRetransmit(k, i) => RetransmitInv(w, k, i);
    case OpDirect(k) => DirectInv(w, k);
    case OpIndirect(k, r) => IndirectInv(w, k, r);
    case OpTimer(k) => TimerInv(w, k);
    case OpReleased(k) => DestroyOutcome(w, k); DestroyInv(w, k);
    case OpShutdown(k, modes) => ShutdownInv(w, k, modes);
    case OpBind(k) => EndpointsInv(w, Bind(w, k).endpoints);
    case OpUnbind(e) => EndpointsInv(w, Unbind(w, e).endpoints);
    case OpOverdue(k) => DestroyOutcome(w, k); DestroyInv(w, k); StaleInv(Destroy(w, k).w, Step(w, op).w.stale);
  }

  lemma StaleInv(w: World, stale: nat)
    requires Inv(w)
    ensures Inv(w.(stale := stale))
  {}

  lemma EndpointsInv(w: World, endpoints: seq<nat>)
    requires Inv(w)
    ensures Inv(w.(endpoints := endpoints))
  {}

  lemma {:induction false} ReachableInv(ops: seq<Op>)
    ensures Run(ops).Done? ==> Inv(Run(ops).w)
  {
    hide Inv, Step;
    if ops == [] {
      assert Inv(EMPTY) by {
        EmptyInv();
      }
    } else {
      var before := ops[..|ops| - 1];
      ReachableInv(before);
      if Run(ops).Done? && Enabled(Run(before).w, ops[|ops| - 1]) {
        StepInv(Run(before).w, ops[|ops| - 1]);
      }
    }
  }

  lemma EmptyInv()
    ensures Inv(EMPTY)
  {}

  // In every state of every run a buffer exists exactly while something holds it or a reference to it was
  // lost, its count says how many of both there are, and an established link has nothing left to send.
  lemma ReachableBuffers(ops: seq<Op>, mb: nat, k: nat)
    requires Run(ops).Done?
    ensures var w := Run(ops).w;
            && (mb in w.bufs <==> Holders(w.links, mb) + w.lost[mb] > 0)
            && (mb in w.bufs ==> w.bufs[mb].refcnt == Holders(w.links, mb) + w.lost[mb])
            && (k < |w.links| && w.links[k].state == ESTABLISHED ==> w.links[k].queue == [])
  {
    ReachableInv(ops);
    FreedWithLastHolder(Run(ops).w, mb);
    if k < |Run(ops).w.links| && Run(ops).w.links[k].state == ESTABLISHED {
      QueueEmpty(Run(ops).w, k);
    }
  }

  predicate AtMostTwo(bufs: map<nat, Buffer>) {
    forall b | b in bufs :: bufs[b].refcnt <= 2
  }

  lemma {:induction false} FreeAllAtMostTwo(bufs: map<nat, Buffer>, q: seq<nat>)
    requires AtMostTwo(bufs)
    ensures AtMostTwo(FreeAll(bufs, q))
  {
    if q != [] {
      FreeAllAtMostTwo(Free(bufs, q[0]), q[1..]);
    }
  }

  lemma {:induction false} FlushAtMostTwo(w: World, link: nat, q: seq<nat>)
    requires AtMostTwo(w.bufs)
    ensures AtMostTwo(Flush(w, link, q).bufs)
    decreases |q|
  {
    if q != [] {
      FlushAtMostTwo(Transmit(w, link, q[0]), link, q[1..]);
    }
  }

  lemma {:induction false} CloseAllAtMostTwo(w: World, k: nat, modes: seq<ReleaseMode>)
    requires AtMostTwo(w.bufs) && k < |w.links| && |modes| == |w.links[k].transactions| && w.links[k].state == RELEASED
    ensures CloseAll(w, k, modes).Done? ==> AtMostTwo(CloseAll(w, k, modes).w.bufs)
    decreases |modes|
  {
    if |modes| > 0 {
      CloseDown(w, k, modes[0]);
      CloseAtMostTwo(w, k, 0, modes[0], false);
      hide Close, AtMostTwo;
      if |modes| > 1 {
        CloseAllAtMostTwo(Close(w, k, 0, modes[0], false).w, k, modes[1..]);
      }
    }
  }

  lemma CloseAtMostTwo(w: World, k: nat, i: nat, mode: ReleaseMode, refused: bool)
    requires AtMostTwo(w.bufs) && k < |w.links| && i < |w.links[k].transactions|
    ensures Close(w, k, i, mode, refused).Done? ==> AtMostTwo(Close(w, k, i, mode, refused).w.bufs)
  {
    hide FreeAll, Without, Rebind;
    FreeAllAtMostTwo(Unlink(w, k, i).bufs, w.links[k].queue);
  }

  lemma StepAtMostTwo(w: World, op: Op)
    requires Inv(w) && AtMostTwo(w.bufs) && Enabled(w, op) && Step(w, op).Done?
    ensures AtMostTwo(Step(w, op).w.bufs)
  {
    hide Inv, FreeAll, CompleteIndirect, CompleteDirect, Retransmit, Close, CloseAll, Send, Receive, Rebind, Flush, Arrive;
    match op
    case OpArrive(k, octet0, how) => ArriveAtMostTwo(w, k, octet0, how);
    case OpClose(k, i, mode, refused) => CloseAtMostTwo(w, k, i, mode, refused);
    case OpSend(k, i, kind, body) => SendAtMostTwo(w, k, i, kind, body);
    case OpRetransmit(k, i) => RetransmitInv(w, k, i);
    case OpDirect(k) => DirectAtMostTwo(w, k);
    case OpIndirect(k, r) => IndirectShape(w, k, r); FreeAllAtMostTwo(w.bufs, w.links[r].queue);
    case OpTimer(k) => FreeAllAtMostTwo(w.bufs, w.links[k].queue);
    case OpReleased(k) => FreeAllAtMostTwo(w.bufs, w.links[k].queue);
    case OpOverdue(k) => FreeAllAtMostTwo(w.bufs, w.links[k].queue);
    case OpShutdown(k, modes) =>
      FreeAllAtMostTwo(w.bufs, w.links[k].queue);
      CloseAllAtMostTwo(Down(w, k), k, modes);
    case _ =>
  }

  lemma ArriveAtMostTwo(w: World, k: nat, octet0: nat, how: Opening)
    requires AtMostTwo(w.bufs) && k < |w.links| && w.links[k].state != ESTABLISH_PENDING && Arrive(w, k, octet0, how).Done?
    ensures AtMostTwo(Arrive(w, k, octet0, how).w.bufs)
  {
    var v := SetLink(w, k, w.links[k].(timer := Stopped));
    hide Receive, Reply, Reject;
    match Receive(w.links[k].transactions, octet0)
    case New(pd, tv) =>
      match how {
        case Answers(kind, body) => ReplyAtMostTwo(v, k, pd, tv, kind, body);
        case Rejects(kind, body, refused) => RejectAtMostTwo(v, k, pd, tv, kind, body, refused);
        case _ =>
      }
    case _ =>
  }

  lemma ReplyAtMostTwo(w: World, k: nat, pd: nat, tv: nat, kind: nat, body: seq<nat>)
    requires AtMostTwo(w.bufs) && k < |w.links| && Reply(w, k, pd, tv, kind, body).Done?
    ensures AtMostTwo(Reply(w, k, pd, tv, kind, body).w.bufs)
  {}

  lemma RejectAtMostTwo(w: World, k: nat, pd: nat, tv: nat, kind: nat, body: seq<nat>, refused: bool)
    requires AtMostTwo(w.bufs) && k < |w.links| && Reject(w, k, pd, tv, kind, body, refused).Done?
    ensures AtMostTwo(Reject(w, k, pd, tv, kind, body, refused).w.bufs)
  {
    ReplyAtMostTwo(w, k, pd, tv, kind, body);
    hide Reply, FreeAll, Rebind;
    var v := Reply(w, k, pd, tv, kind, body).w;
    FreeAllAtMostTwo(v.bufs, v.links[k].queue);
  }

  lemma SendAtMostTwo(w: World, k: nat, i: nat, kind: nat, body: seq<nat>)
    requires AtMostTwo(w.bufs) && k < |w.links| && i < |w.links[k].transactions| && Send(w, k, i, kind, body).Done?
    ensures AtMostTwo(Send(w, k, i, kind, body).w.bufs)
  {}

  lemma DirectAtMostTwo(w: World, k: nat)
    requires AtMostTwo(w.bufs) && k < |w.links|
    ensures AtMostTwo(CompleteDirect(w, k).bufs)
  {
    hide Flush;
    var l := w.links[k];
    FlushAtMostTwo(SetLink(w, k, l.(state := ESTABLISHED, queue := [])), l.id, l.queue);
  }

  // No buffer ever has more than two references, so its eight-bit count never wraps, not even during a
  // retransmission, which takes a third reference for as long as it sends.
  lemma {:induction false} ReachableCounts(ops: seq<Op>)
    requires Run(ops).Done?
    ensures var w := Run(ops).w;
            && (forall mb | mb in w.bufs :: 1 <= w.bufs[mb].refcnt == Holders(w.links, mb) + w.lost[mb] <= 2)
            && (forall mb, b | mb in w.bufs && b in Hold(w.bufs, mb) :: Hold(w.bufs, mb)[b].refcnt <= 3)
  {
    ReachableAtMostTwo(ops);
    forall mb | mb in Run(ops).w.bufs
      ensures 1 <= Run(ops).w.bufs[mb].refcnt == Holders(Run(ops).w.links, mb) + Run(ops).w.lost[mb] <= 2
    {
      ReachableBuffers(ops, mb, 0);
      hide Run;
    }
    hide Run;
  }

  lemma {:induction false} ReachableAtMostTwo(ops: seq<Op>)
    ensures Run(ops).Done? ==> AtMostTwo(Run(ops).w.bufs)
  {
    hide Inv, Step;
    if ops != [] {
      var before := ops[..|ops| - 1];
      ReachableAtMostTwo(before);
      ReachableInv(before);
      hide AtMostTwo;
      if Run(ops).Done? && Enabled(Run(before).w, ops[|ops| - 1]) {
        StepAtMostTwo(Run(before).w, ops[|ops| - 1]);
      }
    }
  }

  // ----- Lost references -----

  // The step answers a message on a transaction that is never linked.
  predicate Leaks(w: World, op: Op)
    requires Enabled(w, op)
  {
    op.OpArrive? && Receive(w.links[op.k].transactions, op.octet0).New? && (op.how.Answers? || op.how.Rejects?)
  }

  // Exactly then a reference is lost: the one to the answer.
  lemma StepLost(w: World, op: Op)
    requires Inv(w) && Enabled(w, op) && Step(w, op).Done?
    ensures Step(w, op).w.lost == w.lost + (if Leaks(w, op) then multiset{w.next} else multiset{})
  {
    hide Inv, FreeAll, FreeIf, Flush, Rebind, Receive, Insert, Close, CloseAll, CompleteIndirect, Reply;
    match op
    case OpArrive(k, octet0, how) => ArriveLost(w, k, octet0, how);
    case OpClose(k, i, mode, refused) => CloseLost(w, k, i, mode, refused);
    case OpIndirect(k, r) => IndirectShape(w, k, r);
    case OpShutdown(k, modes) =>
      if modes != [] {
        CloseAllLost(Down(w, k), k, modes);
      }
    case _ =>
  }

  lemma ArriveLost(w: World, k: nat, octet0: nat, how: Opening)
    requires Enabled(w, OpArrive(k, octet0, how)) && Arrive(w, k, octet0, how).Done?
    ensures Arrive(w, k, octet0, how).w.lost == w.lost + (if Leaks(w, OpArrive(k, octet0, how)) then multiset{w.next} else multiset{})
  {
    hide Receive, Reply, Insert, FreeAll, Rebind;
    var v := SetLink(w, k, w.links[k].(timer := Stopped));
    match Receive(w.links[k].transactions, octet0)
    case New(pd, tv) =>
      match how {
        case Answers(kind, body) => ReplyOutcome(v, k, pd, tv, kind, body);
        case Rejects(kind, body, refused) => ReplyOutcome(v, k, pd, tv, kind, body);
        case _ =>
      }
    case _ =>
  }

  lemma CloseLost(w: World, k: nat, i: nat, mode: ReleaseMode, refused: bool)
    requires k < |w.links| && i < |w.links[k].transactions| && Close(w, k, i, mode, refused).Done?
    ensures Close(w, k, i, mode, refused).w.lost == w.lost
  {
    hide FreeAll, FreeIf, Rebind, Without;
  }

  lemma {:induction false} CloseAllLost(w: World, k: nat, modes: seq<ReleaseMode>)
    requires k < |w.links| && |modes| == |w.links[k].transactions| && w.links[k].state == RELEASED
    ensures CloseAll(w, k, modes).Done? ==> CloseAll(w, k, modes).w.lost == w.lost
    decreases |modes|
  {
    if |modes| > 0 {
      CloseDown(w, k, modes[0]);
      CloseLost(w, k, 0, modes[0], false);
      hide Close;
      if |modes| > 1 {
        CloseAllLost(Close(w, k, 0, modes[0], false).w, k, modes[1..]);
      }
    }
  }

  predicate NeverLeaks(ops: seq<Op>) {
    ops == [] || (NeverLeaks(ops[..|ops| - 1]) &&
                  match Run(ops[..|ops| - 1])
                  case Done(w) => Enabled(w, ops[|ops| - 1]) ==> !Leaks(w, ops[|ops| - 1])
                  case Aborted => true)
  }

  // Every buffer of a run is held by a queue or a transaction, and freed with its last holder, exactly if no
  // step of the run answers a message without a transaction.
  lemma {:induction false} HeldExactly(ops: seq<Op>)
    requires Run(ops).Done?
    ensures var w := Run(ops).w; (forall mb | mb in w.bufs :: w.bufs[mb].refcnt == Holders(w.links, mb)) <==> NeverLeaks(ops)
  {
    LostExactly(ops);
    hide Run, NeverLeaks;
    var w := Run(ops).w;
    if w.lost != multiset{} {
      var mb :| mb in w.lost;
      ReachableBuffers(ops, mb, 0);
      assert mb in w.bufs && w.bufs[mb].refcnt != Holders(w.links, mb);
    } else {
      forall mb | mb in w.bufs
        ensures w.bufs[mb].refcnt == Holders(w.links, mb)
      {
        ReachableBuffers(ops, mb, 0);
      }
    }
  }

  lemma {:induction false} LostExactly(ops: seq<Op>)
    requires Run(ops).Done?
    ensures Run(ops).w.lost == multiset{} <==> NeverLeaks(ops)
  {
    hide Inv, Step, Leaks;
    if ops != [] {
      var before, op := ops[..|ops| - 1], ops[|ops| - 1];
      LostExactly(before);
      ReachableInv(before);
      if Enabled(Run(before).w, op) {
        StepLost(Run(before).w, op);
      }
    }
  }

  // A buffer with a lost reference stays, whatever comes.
  lemma {:induction false} LostStays(ops: seq<Op>, more: seq<Op>, mb: nat)
    requires Run(ops).Done? && mb in Run(ops).w.lost && Run(ops + more).Done?
    ensures mb in Run(ops + more).w.lost && mb in Run(ops + more).w.bufs
    decreases |more|
  {
    hide Inv, Step, Leaks;
    var all := ops + more;
    if more == [] {
      assert all == ops;
    } else {
      var before, op := all[..|all| - 1], all[|all| - 1];
      assert before == ops + more[..|more| - 1];
      LostStays(ops, more[..|more| - 1], mb);
      ReachableInv(before);
      if Enabled(Run(before).w, op) {
        StepLost(Run(before).w, op);
      }
    }
    ReachableBuffers(all, mb, 0);
  }

  // One message to an unknown call is enough.
  lemma AnswerLeaks(kind: nat, body: seq<nat>)
    ensures var o := Run([OpEstablish(Incoming), OpArrive(0, CC, Answers(kind, body))]);
            o.Done? && 1 in o.w.bufs && Holders(o.w.links, 1) == 0
  {
    var a, b := OpEstablish(Incoming), OpArrive(0, CC, Answers(kind, body));
    assert [a, b][..1] == [a] && [a][..0] == [];
    assert Run([]) == Done(EMPTY);
    assert Run([a]) == Done(Connected());
    hide Run, Receive, Arrive;
    AnswerSent(kind, body);
    RunStep([a, b], Connected());
    LostStays([a, b], [], 1);
    assert [a, b] + [] == [a, b];
  }

  // A link that the peer has just connected.
  function Connected(): World {
    World([Link(0, ESTABLISHED, Sdu, [], [], false, 0)], map[], [], [], 1, multiset{}, 0)
  }

  lemma AnswerSent(kind: nat, body: seq<nat>)
    ensures var d := OpArrive(0, CC, Answers(kind, body)); var o := Arrive(Connected(), 0, CC, Answers(kind, body));
            && Enabled(Connected(), d) && o.Done? && o.w.lost == multiset{1} && Holders(o.w.links, 1) == 0
  {
    var w := Connected();
    var v := SetLink(w, 0, w.links[0].(timer := Stopped));
    assert Receive([], CC) == New(CC, 0);
    hide Receive, Reply;
    ReplyOutcome(v, 0, CC, 0, kind, body);
    assert v.links == [w.links[0].(timer := Stopped)];
  }

  // The same message on a link that is being released aborts.
  lemma AnswerInRelease(kind: nat, body: seq<nat>)
    ensures Run([OpEstablish(Incoming), OpOpen(0, CISS), OpClose(0, 0, NORMAL, false), OpArrive(0, CC, Answers(kind, body))]).Aborted?
  {
    var a, b, c, d := OpEstablish(Incoming), OpOpen(0, CISS), OpClose(0, 0, NORMAL, false), OpArrive(0, CC, Answers(kind, body));
    assert [a, b, c, d][..3] == [a, b, c];
    hide *;
    assert |[a, b, c, d]| == 4;
    ReleasingReached();
    AnswerAborts(kind, body);
    RunStep([a, b, c, d], Releasing());
  }

  lemma AnswerAborts(kind: nat, body: seq<nat>)
    ensures var d := OpArrive(0, CC, Answers(kind, body)); Enabled(Releasing(), d) && Step(Releasing(), d).Aborted?
  {
    assert Receive([], CC) == New(CC, 0);
    hide Receive, Arrive;
    ArriveAborts(Releasing(), 0, CC, Answers(kind, body));
  }

  function Releasing(): World {
    World([Link(0, RELEASE_PENDING, Sdu, [], [], false, 1)], map[], [], [], 2, multiset{}, 0)
  }

  lemma ReleasingReached()
    ensures Run([OpEstablish(Incoming), OpOpen(0, CISS), OpClose(0, 0, NORMAL, false)]) == Done(Releasing())
  {
    var a, b, c := OpEstablish(Incoming), OpOpen(0, CISS), OpClose(0, 0, NORMAL, false);
    assert [a, b, c][..2] == [a, b] && [a, b][..1] == [a] && [a][..0] == [];
    var w, l := Connected(), Connected().links[0];
    assert Run([]) == Done(EMPTY);
    assert Run([a]) == Done(w);
    var t := Transaction(CISS, INITIATOR, 0, 0, None, 1);
    hide Run, Close, Open;
    OpenFirst(w, t);
    var v := w.(links := [l.(transactions := [t])], next := 2);
    RunStep([a, b], w);
    CloseOnly(v);
    RunStep([a, b, c], v);
  }

  lemma OpenFirst(w: World, t: Transaction)
    requires |w.links| == 1 && w.links[0].transactions == [] && t == Transaction(CISS, INITIATOR, 0, w.links[0].id, None, w.next)
    ensures Open(w, 0, CISS) == w.(links := [w.links[0].(transactions := [t])], next := w.next + 1)
  {
    assert AllocTv([], CISS) == Some(0);
    hide AllocTv;
    assert Insert([], t) == [t];
    assert Open(w, 0, CISS).links == [w.links[0].(transactions := [t])];
  }

  lemma CloseOnly(w: World)
    requires |w.links| == 1 && |w.links[0].transactions| == 1 && w.links[0].transactions[0].mb.None?
    requires w.links[0].state == ESTABLISHED && w.links[0].releases == 0
    ensures Close(w, 0, 0, NORMAL, false) ==
            Done(w.(links := [w.links[0].(transactions := [], state := RELEASE_PENDING, releases := 1)]))
  {
    assert Without(w.links[0].transactions, 0) == [];
    hide Without;
    assert Close(w, 0, 0, NORMAL, false).w.links == [w.links[0].(transactions := [], state := RELEASE_PENDING, releases := 1)];
  }

  lemma RunStep(ops: seq<Op>, w: World)
    requires ops != [] && Run(ops[..|ops| - 1]) == Done(w) && Enabled(w, ops[|ops| - 1])
    ensures Run(ops) == Step(w, ops[|ops| - 1])
  {
    hide Step, Enabled;
  }

  // ----- Aborts -----

  // What a caller can check beforehand.
  predicate Fatal(w: World, op: Op)
    requires Enabled(w, op)
  {
    match op
    case OpClose(k, i, _, _) =>
      var l := w.links[k];
      l.state == ESTABLISH_PENDING && |l.transactions| > 1 && l.transactions[i].pd in {CC, COMS}
    case OpSend(k, _, _, _) => w.links[k].state !in {ESTABLISHED, ESTABLISH_PENDING}
    case OpSendCl(k, _, _, _) => w.links[k].state !in {ESTABLISHED, ESTABLISH_PENDING}
    case OpArrive(k, octet0, how) =>
      var l := w.links[k];
      && Receive(l.transactions, octet0).New?
      && (match how
          case Answers(_, _) => l.state != ESTABLISHED
          case Rejects(_, _, refused) => l.state != ESTABLISHED || (refused && l.transactions != [])
          case Lacks => true
          case _ => false)
    case OpIndirect(_, r) => !w.links[r].paging
    case OpTimer(k) => w.links[k].timer == Sdu && w.links[k].transactions != []
    case OpReleased(k) => w.links[k].transactions != []
    case OpOverdue(k) => w.links[k].transactions != []
    case OpStale => true
    case _ => false
  }

  lemma AbortsExactly(w: World, op: Op)
    requires Inv(w) && Enabled(w, op)
    ensures Step(w, op).Aborted? <==> Fatal(w, op)
  {
    hide Inv, Arrive, Receive;
    match op
    case OpArrive(k, octet0, how) => ArriveAborts(w, k, octet0, how);
    case OpClose(k, i, mode, refused) => CloseAborts(w, k, i, mode, refused);
    case OpIndirect(k, r) =>
      if w.links[r].paging {
        IndirectShape(w, k, r);
      }
    case OpShutdown(k, modes) => ShutdownInv(w, k, modes);
    case _ =>
  }

  lemma ArriveAborts(w: World, k: nat, octet0: nat, how: Opening)
    requires Enabled(w, OpArrive(k, octet0, how))
    ensures Arrive(w, k, octet0, how).Aborted? <==> Fatal(w, OpArrive(k, octet0, how))
  {
    hide Receive, Reply;
    var v := SetLink(w, k, w.links[k].(timer := Stopped));
    match Receive(w.links[k].transactions, octet0)
    case New(pd, tv) =>
      match how {
        case Answers(kind, body) => ReplyOutcome(v, k, pd, tv, kind, body);
        case Rejects(kind, body, refused) => ReplyOutcome(v, k, pd, tv, kind, body);
        case _ =>
      }
    case _ =>
  }

  lemma CloseAborts(w: World, k: nat, i: nat, mode: ReleaseMode, refused: bool)
    requires k < |w.links| && i < |w.links[k].transactions|
    ensures Close(w, k, i, mode, refused).Aborted? <==> Fatal(w, OpClose(k, i, mode, refused))
  {
    hide Unlink;
    UnlinkShape(w, k, i);
    var l := w.links[k];
    assert Without(l.transactions, i) == [] <==> |l.transactions| == 1;
  }

  // Ending an MM or CISS transaction while its link is still being established keeps the queue.
  lemma ClosePendingKeepsQueue(w: World, k: nat, i: nat, mode: ReleaseMode, refused: bool)
    requires k < |w.links| && i < |w.links[k].transactions|
    requires w.links[k].state == ESTABLISH_PENDING && w.links[k].transactions[i].pd !in {CC, COMS}
    ensures var l := w.links[k];
            Close(w, k, i, mode, refused) == Done(w.(
              links := w.links[k := l.(transactions := Without(l.transactions, i))],
              bufs := FreeIf(w.bufs, l.transactions[i].mb)))
  {}

  // When a link goes down and each handler closes its own transaction, all of them end in list order. It is
  // destroyed exactly if it had none or the last one is a call; otherwise it stays, empty, until a timer that
  // an earlier handler left running.
  lemma {:induction false} ShutdownDestroys(w: World, k: nat, modes: seq<ReleaseMode>)
    requires Inv(w) && k < |w.links| && |modes| == |w.links[k].transactions|
    ensures var l := w.links[k]; var o := Shutdown(w, k, modes); var n := |modes|;
            && o.Done?
            && (if n == 0 || l.transactions[n - 1].pd in {CC, COMS} then o.w.links == Dropped(w.links, k) else
                  && |o.w.links| == |w.links|
                  && o.w.links[k] == l.(state := RELEASED, transactions := [], paging := false,
                                        timer := if PARTIAL in modes[..n - 1] then Maintain else l.timer))
  {
    hide Inv, Close, CloseAll;
    ShutdownInv(w, k, modes);
    if modes != [] {
      CloseAllEnds(Down(w, k), k, modes);
      assert Dropped(Down(w, k).links, k) == Dropped(w.links, k);
    } else {
      assert Dropped(Down(w, k).links, k) == Dropped(w.links, k);
    }
  }

  lemma {:induction false} CloseAllEnds(w: World, k: nat, modes: seq<ReleaseMode>)
    requires k < |w.links| && |modes| == |w.links[k].transactions| > 0
    requires w.links[k].state == RELEASED
    ensures var l := w.links[k]; var o := CloseAll(w, k, modes); var n := |modes|;
            && o.Done?
            && (if l.transactions[n - 1].pd in {CC, COMS} then o.w.links == Dropped(w.links, k) else
                  && |o.w.links| == |w.links|
                  && o.w.links[k] == l.(transactions := [], timer := if PARTIAL in modes[..n - 1] then Maintain else l.timer))
    decreases |modes|
  {
    hide Close;
    CloseDown(w, k, modes[0]);
    if |modes| > 1 {
      CloseOthers(w, k, modes[0]);
      var v := Close(w, k, 0, modes[0], false).w;
      CloseAllEnds(v, k, modes[1..]);
      assert Dropped(v.links, k) == Dropped(w.links, k);
      var n := |modes|;
      assert modes[..n - 1] == [modes[0]] + modes[1..][..n - 2];
    }
  }

  lemma CloseOthers(w: World, k: nat, mode: ReleaseMode)
    requires k < |w.links| && |w.links[k].transactions| > 1 && w.links[k].state == RELEASED
    ensures var o := Close(w, k, 0, mode, false);
            o.Done? && |o.w.links| == |w.links| && forall j | 0 <= j < |w.links| && j != k :: o.w.links[j] == w.links[j]
  {}

  // A normal close on an established link releases the link exactly when no transaction is left.
  lemma CloseReleasesLast(w: World, k: nat, i: nat, refused: bool)
    requires k < |w.links| && i < |w.links[k].transactions| && w.links[k].state == ESTABLISHED
    ensures var l := w.links[k]; var o := Close(w, k, i, NORMAL, refused);
            && o.Done?
            && (if |l.transactions| > 1 then
                  o.w.links == w.links[k := l.(transactions := Without(l.transactions, i))]
                else if refused then o.w.links == Dropped(w.links, k)
                else o.w.links == w.links[k := l.(transactions := [], state := RELEASE_PENDING, releases := l.releases + 1)])
  {
    var l := w.links[k];
    assert Without(l.transactions, i) == [] <==> |l.transactions| == 1;
  }

  // ----- Retransmission -----

  // The message that Send builds for a transaction.
  function Built(t: Transaction, kind: nat, body: seq<nat>): Message {
    Message(Octet0(t.pd, t.tv, t.role), kind, body)
  }

  // On an established link a message goes out at once, and retransmitting sends it again.
  lemma RetransmitRepeats(w: World, k: nat, i: nat, kind: nat, body: seq<nat>)
    requires Inv(w) && k < |w.links| && i < |w.links[k].transactions| && w.links[k].state == ESTABLISHED
    ensures var l := w.links[k]; var m := Built(l.transactions[i], kind, body); var o := Send(w, k, i, kind, body);
            && o.Done? && o.w.sent == w.sent + [Sent(l.id, m)]
            && |o.w.links| == |w.links| && |o.w.links[k].transactions| == |l.transactions|
            && Retransmit(o.w, k, i).sent == o.w.sent + [Sent(l.id, m)]
  {
    hide Inv;
  }

  // A connectionless message goes out with transaction value 6 and without the F flag, and an answer to a message of
  // no transaction with the F flag and that message's value; on a link that is being established both wait their turn.
  lemma OthersSent(w: World, k: nat, pd: nat, tv: nat, kind: nat, body: seq<nat>)
    requires Inv(w) && k < |w.links| && w.links[k].state in {ESTABLISHED, ESTABLISH_PENDING}
    ensures var l := w.links[k]; var c, r := SendCl(w, k, pd, kind, body), Reply(w, k, pd, tv, kind, body);
            && c.Done? && r.Done?
            && (if l.state == ESTABLISHED then
                  && c.w == w.(sent := w.sent + [Sent(l.id, Message(pd + 96, kind, body))], next := w.next + 1)
                  && r.w.sent == w.sent + [Sent(l.id, Message(pd + 16 * tv + 128, kind, body))] && r.w.links == w.links
                else
                  && c.w.sent == r.w.sent == w.sent
                  && c.w.links == r.w.links == w.links[k := l.(queue := l.queue + [w.next])]
                  && Text(c.w.bufs, w.next) == Message(pd + 96, kind, body)
                  && Text(r.w.bufs, w.next) == Message(pd + 16 * tv + 128, kind, body))
  {
    assert w.next !in w.bufs;
    assert w.bufs[w.next := Buffer(1, Message(pd + 96, kind, body))] - {w.next} == w.bufs;
  }

  // A message that had to wait for its link is still there to be sent again after it went out.
  lemma RetransmitAfterWait(w: World, k: nat, i: nat, kind: nat, body: seq<nat>)
    requires Inv(w) && k < |w.links| && i < |w.links[k].transactions| && w.links[k].state == ESTABLISH_PENDING
    ensures var l := w.links[k]; var m := Built(l.transactions[i], kind, body); var o := Send(w, k, i, kind, body);
            && o.Done? && o.w.sent == w.sent && |o.w.links| == |w.links|
            && var v := CompleteDirect(o.w, k);
               && |v.links| == |w.links| && |v.links[k].transactions| == |l.transactions|
               && v.sent != [] && v.sent[|v.sent| - 1] == Sent(l.id, m)
               && Retransmit(v, k, i).sent == v.sent + [Sent(l.id, m)]
  {
    var l := w.links[k];
    var m := Built(l.transactions[i], kind, body);
    SendWaits(w, k, i, kind, body);
    SendInv(w, k, i, kind, body);
    hide Inv, Send, CompleteDirect;
    var u := Send(w, k, i, kind, body).w;
    var q := u.links[k].queue;
    DirectSendsQueue(u, k);
    DirectInv(u, k);
    var v := CompleteDirect(u, k);
    assert v.sent[|v.sent| - 1] == Transcript(u.bufs, l.id, q)[|q| - 1];
    HeldByTransaction(v, k, i);
    DirectKeepsText(u, k, w.next);
  }

  lemma SendWaits(w: World, k: nat, i: nat, kind: nat, body: seq<nat>)
    requires k < |w.links| && i < |w.links[k].transactions| && w.links[k].state == ESTABLISH_PENDING
    ensures var l := w.links[k]; var t := l.transactions[i]; var o := Send(w, k, i, kind, body);
            && o.Done? && o.w.sent == w.sent
            && o.w.links == w.links[k := l.(timer := Stopped, queue := l.queue + [w.next],
                                            transactions := l.transactions[i := t.(mb := Some(w.next))])]
            && Text(o.w.bufs, w.next) == Built(t, kind, body)
  {
    hide FreeIf;
  }

  lemma DirectKeepsText(w: World, k: nat, mb: nat)
    requires k < |w.links| && mb in CompleteDirect(w, k).bufs
    ensures Text(CompleteDirect(w, k).bufs, mb) == Text(w.bufs, mb)
  {
    var l := w.links[k];
    if l.state == ESTABLISH_PENDING {
      FlushKeepsText(SetLink(w, k, l.(state := ESTABLISHED, queue := [])), l.id, l.queue, mb);
    }
  }

  lemma {:induction false} FlushKeepsText(w: World, link: nat, q: seq<nat>, mb: nat)
    requires mb in Flush(w, link, q).bufs
    ensures mb in w.bufs && Text(Flush(w, link, q).bufs, mb) == Text(w.bufs, mb)
    decreases |q|
  {
    if q != [] {
      FlushKeepsText(Transmit(w, link, q[0]), link, q[1..], mb);
    }
  }
}
