// The MM endpoints of the Link Control Entity's runs: each belongs to a link that exists, and no link has
// two, exactly as long as nobody gives a link a second one.
module LceEndpoints {
  import opened Common
  import opened Lce
  import opened LceInvariant
  import opened LceRuns

  function Ids(links: seq<Link>): seq<nat> {
    seq(|links|, i requires 0 <= i < |links| => links[i].id)
  }

  predicate Distinct(es: seq<nat>) {
    forall i, j | 0 <= i < j < |es| :: es[i] != es[j]
  }

  // Every endpoint has a link, and an endpoint of its own.
  predicate Tied(ids: seq<nat>, es: seq<nat>) {
    Distinct(es) && forall e | e in es :: e in ids
  }

  // The step gives no link a second endpoint.
  predicate Careful(w: World, op: Op)
    requires Enabled(w, op)
  {
    match op
    case OpBind(k) => w.links[k].id !in w.endpoints
    case OpIndirect(k, r) => !(w.links[k].id in w.endpoints && w.links[r].id in w.endpoints)
    case _ => true
  }

  // ----- Rebinding -----

  lemma {:induction false} RebindSome(es: seq<nat>, from: nat, to: nat)
    requires Distinct(es) && from != to
    ensures var r := Rebind(es, from, Some(to));
            && (Distinct(r) <==> !(from in es && to in es))
            && (forall x :: x in r <==> (x in es && x != from) || (x == to && from in es))
  {
    if es != [] {
      var t := es[1..];
      assert es == [es[0]] + t;
      if es[0] == from {
        HeadDistinct(to, t);
        assert Rebind(es, from, Some(to)) == [to] + t;
      } else {
        assert Distinct(t);
        RebindSome(t, from, to);
        HeadDistinct(es[0], Rebind(t, from, Some(to)));
        assert Rebind(es, from, Some(to)) == [es[0]] + Rebind(t, from, Some(to));
      }
    }
  }

  lemma HeadDistinct(x: nat, t: seq<nat>)
    ensures Distinct([x] + t) <==> Distinct(t) && x !in t
  {
    var r := [x] + t;
    assert forall i | 0 < i < |r| :: r[i] == t[i - 1];
    if Distinct(r) {
      forall i, j | 0 <= i < j < |t|
        ensures t[i] != t[j]
      {
        assert r[i + 1] == t[i] && r[j + 1] == t[j];
      }
      forall i | 0 <= i < |t|
        ensures t[i] != x
      {
        assert r[0] == x && r[i + 1] == t[i];
      }
    }
  }

  lemma {:induction false} RebindNone(es: seq<nat>, from: nat)
    requires Distinct(es)
    ensures var r := Rebind(es, from, None); Distinct(r) && forall x :: x in r <==> x in es && x != from
  {
    if es != [] {
      var t := es[1..];
      assert es == [es[0]] + t;
      HeadDistinct(es[0], t);
      if es[0] != from {
        RebindNone(t, from);
        HeadDistinct(es[0], Rebind(t, from, None));
      }
    }
  }

  // ----- Steps -----

  // What a step on link k does that is no establishment and does not concern endpoints alone.
  predicate Local(w: World, v: World, k: nat) {
    || (Ids(v.links) == Ids(w.links) && v.endpoints == w.endpoints)
    || (k < |w.links| && v.links == Dropped(w.links, k) && v.endpoints == Rebind(w.endpoints, w.links[k].id, None))
  }

  lemma LocalTied(w: World, v: World, k: nat)
    requires Inv(w) && Tied(Ids(w.links), w.endpoints) && Local(w, v, k)
    ensures Tied(Ids(v.links), v.endpoints)
  {
    if k < |w.links| && v.links == Dropped(w.links, k) && v.endpoints == Rebind(w.endpoints, w.links[k].id, None) {
      RebindNone(w.endpoints, w.links[k].id);
      DroppedIds(w.links, k);
    }
  }

  lemma DroppedIds(links: seq<Link>, k: nat)
    requires k < |links|
    ensures forall e :: e in Ids(links) && e != links[k].id ==> e in Ids(Dropped(links, k))
  {
    forall e | e in Ids(links) && e != links[k].id
      ensures e in Ids(Dropped(links, k))
    {
      var i :| 0 <= i < |links| && links[i].id == e;
      assert Ids(Dropped(links, k))[if i < k then i else i - 1] == e;
    }
  }

  lemma SameIds(links: seq<Link>, k: nat, l: Link)
    requires k < |links| && l.id == links[k].id
    ensures Ids(links[k := l]) == Ids(links)
  {}

  lemma CloseLocal(w: World, k: nat, i: nat, mode: ReleaseMode, refused: bool)
    requires k < |w.links| && i < |w.links[k].transactions| && Close(w, k, i, mode, refused).Done?
    ensures Local(w, Close(w, k, i, mode, refused).w, k)
  {
    hide Without, FreeIf, FreeAll, Rebind;
    var l := Unlink(w, k, i).links[k];
    assert Dropped(Unlink(w, k, i).links, k) == Dropped(w.links, k);
  }

  lemma {:induction false} CloseAllLocal(w: World, k: nat, modes: seq<ReleaseMode>)
    requires k < |w.links| && |modes| == |w.links[k].transactions| && w.links[k].state == RELEASED
    ensures CloseAll(w, k, modes).Done? ==> Local(w, CloseAll(w, k, modes).w, k)
    decreases |modes|
  {
    if |modes| > 0 {
      CloseDown(w, k, modes[0]);
      CloseLocal(w, k, 0, modes[0], false);
      if |modes| > 1 {
        CloseOthers(w, k, modes[0]);
        FirstClosed(w, k, modes[0]);
        hide Close;
        var v := Close(w, k, 0, modes[0], false).w;
        CloseAllLocal(v, k, modes[1..]);
        assert Dropped(v.links, k) == Dropped(w.links, k);
        hide Rebind;
      }
    }
  }

  lemma FirstClosed(w: World, k: nat, mode: ReleaseMode)
    requires k < |w.links| && |w.links[k].transactions| > 1 && w.links[k].state == RELEASED
    ensures var v := Close(w, k, 0, mode, false).w; Ids(v.links) == Ids(w.links) && v.endpoints == w.endpoints
  {
    hide FreeIf, Destroy;
  }

  // The link a step works on.
  function LinkOf(op: Op): nat {
    match op
    case OpOpen(k, _) => k
    case OpArrive(k, _, _) => k
    case OpClose(k, _, _, _) => k
    case OpSend(k, _, _, _) => k
    case OpSendCl(k, _, _, _) => k
    case OpRetransmit(k, _) => k
    case OpDirect(k) => k
    case OpTimer(k) => k
    case OpReleased(k) => k
    case OpShutdown(k, _) => k
    case OpOverdue(k) => k
    case _ => 0
  }

  lemma StepLocal(w: World, op: Op)
    requires Inv(w) && Enabled(w, op) && Step(w, op).Done?
    requires !op.OpEstablish? && !op.OpIndirect? && !op.OpBind? && !op.OpUnbind?
    ensures Local(w, Step(w, op).w, LinkOf(op))
  {
    hide Inv, FreeAll, FreeIf, Insert, Receive, AllocTv, Rebind, Flush, Close, CloseAll, Arrive;
    match op
    case OpArrive(k, octet0, how) => ArriveLocal(w, k, octet0, how);
    case OpClose(k, i, mode, refused) => CloseLocal(w, k, i, mode, refused);
    case OpRetransmit(k, i) => RetransmitInv(w, k, i);
    case OpShutdown(k, modes) => ShutdownLocal(w, k, modes);
    case _ =>
  }

  lemma ArriveLocal(w: World, k: nat, octet0: nat, how: Opening)
    requires Enabled(w, OpArrive(k, octet0, how)) && Arrive(w, k, octet0, how).Done?
    ensures Local(w, Arrive(w, k, octet0, how).w, k)
  {
    hide Receive, Reply, Insert, FreeAll, Rebind;
    var v := SetLink(w, k, w.links[k].(timer := Stopped));
    assert Ids(v.links) == Ids(w.links) && Dropped(v.links, k) == Dropped(w.links, k);
    match Receive(w.links[k].transactions, octet0)
    case New(pd, tv) =>
      match how {
        case Answers(kind, body) => ReplyOutcome(v, k, pd, tv, kind, body);
        case Rejects(kind, body, refused) => ReplyOutcome(v, k, pd, tv, kind, body);
        case _ =>
      }
    case _ =>
  }

  lemma ShutdownLocal(w: World, k: nat, modes: seq<ReleaseMode>)
    requires k < |w.links| && |modes| == |w.links[k].transactions| && Shutdown(w, k, modes).Done?
    ensures Local(w, Shutdown(w, k, modes).w, k)
  {
    hide Rebind, FreeAll;
    var v := Down(w, k);
    assert Ids(v.links) == Ids(w.links) && Dropped(v.links, k) == Dropped(w.links, k);
    if w.links[k].transactions != [] {
      CloseAllLocal(v, k, modes);
      hide CloseAll;
    }
  }

  lemma IndirectTied(w: World, k: nat, r: nat)
    requires Inv(w) && Tied(Ids(w.links), w.endpoints) && k < |w.links| && r < |w.links| && k != r && w.links[r].paging
    ensures var o := CompleteIndirect(w, k, r);
            o.Done? && (Tied(Ids(o.w.links), o.w.endpoints) <==> !(w.links[k].id in w.endpoints && w.links[r].id in w.endpoints))
  {
    var l, req := w.links[k], w.links[r];
    assert l.id != req.id;
    IndirectShape(w, k, r);
    hide Inv, CompleteIndirect, Transcript, FreeAll;
    var joined := w.links[k := Joined(l, req)];
    SameIds(w.links, k, Joined(l, req));
    DroppedIds(joined, r);
    hide Joined, Dropped;
    RebindSome(w.endpoints, req.id, l.id);
    var es := Rebind(w.endpoints, req.id, Some(l.id));
    if Distinct(es) {
      RebindNone(es, req.id);
      assert Ids(w.links)[k] == l.id;
    } else {
      assert req.id !in es;
      Unmoved(es, req.id);
    }
  }

  lemma {:induction false} Unmoved(es: seq<nat>, from: nat)
    requires from !in es
    ensures Rebind(es, from, None) == es
  {
    if es != [] {
      Unmoved(es[1..], from);
    }
  }

  // While every link has one endpoint at most, a step keeps it so exactly if it is careful.
  lemma StepTied(w: World, op: Op)
    requires Inv(w) && Tied(Ids(w.links), w.endpoints) && Enabled(w, op) && Step(w, op).Done?
    ensures Tied(Ids(Step(w, op).w.links), Step(w, op).w.endpoints) <==> Careful(w, op)
  {
    match op
    case OpEstablish(how) =>
      assert Ids(Establish(w, how).links) == Ids(w.links) + [w.next];
    case OpIndirect(k, r) => IndirectTied(w, k, r);
    case OpBind(k) => BindTied(w, k);
    case OpUnbind(e) => UnbindTied(w, e);
    case OpStale =>
    case _ =>
      StepLocal(w, op);
      hide Step, Inv;
      LocalTied(w, Step(w, op).w, LinkOf(op));
  }

  lemma BindTied(w: World, k: nat)
    requires Tied(Ids(w.links), w.endpoints) && k < |w.links|
    ensures Tied(Ids(w.links), Bind(w, k).endpoints) <==> w.links[k].id !in w.endpoints
  {
    var id, es := w.links[k].id, Bind(w, k).endpoints;
    assert es[|w.endpoints|] == id && Ids(w.links)[k] == id;
    if i :| 0 <= i < |w.endpoints| && w.endpoints[i] == id {
      assert es[i] == id;
    }
  }

  lemma UnbindTied(w: World, e: nat)
    requires Tied(Ids(w.links), w.endpoints) && e < |w.endpoints|
    ensures Tied(Ids(w.links), Unbind(w, e).endpoints)
  {
    var es := Unbind(w, e).endpoints;
    assert forall i | 0 <= i < |es| :: es[i] == w.endpoints[if i < e then i else i + 1];
  }

  // ----- Runs -----

  predicate CarefulRun(ops: seq<Op>) {
    ops == [] || (CarefulRun(ops[..|ops| - 1]) &&
                  match Run(ops[..|ops| - 1])
                  case Done(w) => Enabled(w, ops[|ops| - 1]) ==> Careful(w, ops[|ops| - 1])
                  case Aborted => true)
  }

  lemma {:induction false} CarefulRunsTied(ops: seq<Op>)
    requires CarefulRun(ops) && Run(ops).Done?
    ensures Tied(Ids(Run(ops).w.links), Run(ops).w.endpoints)
  {
    hide Inv, Step, Careful, Tied;
    if ops == [] {
      assert Tied(Ids(EMPTY.links), EMPTY.endpoints) by {
        EmptyTied();
      }
    } else {
      var before := ops[..|ops| - 1];
      CarefulRunsTied(before);
      ReachableInv(before);
      if Enabled(Run(before).w, ops[|ops| - 1]) {
        StepTied(Run(before).w, ops[|ops| - 1]);
      }
    }
  }

  lemma EmptyTied()
    ensures Tied(Ids(EMPTY.links), EMPTY.endpoints)
  {}

  // Two endpoints of one link, and the second stays when the link goes.
  lemma SecondEndpointDangles()
    ensures var o := Run([OpEstablish(Incoming), OpBind(0), OpBind(0), OpTimer(0)]);
            o.Done? && o.w.links == [] && |o.w.endpoints| == 1
  {
    var a, b, c := OpEstablish(Incoming), OpBind(0), OpTimer(0);
    assert [a, b, b, c][..3] == [a, b, b] && [a, b, b][..2] == [a, b] && [a, b][..1] == [a] && [a][..0] == [];
    var w := Connected();
    assert Run([]) == Done(EMPTY);
    assert Run([a]) == Done(w);
    hide Run, Destroy;
    RunStep([a, b], w);
    RunStep([a, b, b], w.(endpoints := [0]));
    RunStep([a, b, b, c], w.(endpoints := [0, 0]));
    TimedOut(w.(endpoints := [0, 0]));
  }

  lemma TimedOut(w: World)
    requires w == Connected().(endpoints := [0, 0])
    ensures Destroy(w, 0).Done? && Destroy(w, 0).w.links == [] && Destroy(w, 0).w.endpoints == [0]
  {
    assert Rebind([0, 0], 0, None) == [0];
    hide Rebind;
  }
}
