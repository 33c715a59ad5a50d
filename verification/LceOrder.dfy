// The transactions of a link: transaction values, uniqueness, list order, and how two peers name
// the same transaction.
module LceOrder {
  import opened Common
  import opened Lce
  import opened LceInvariant
  import opened LceRuns

  // MM transactions come last, the one linked last first.
  predicate Ordered(ts: seq<Transaction>) {
    forall i, j | 0 <= i < j < |ts| :: ts[i].pd == MM ==> ts[j].pd == MM && ts[j].born < ts[i].born
  }

  predicate MmLast(ts: seq<Transaction>) {
    forall i, j | 0 <= i < j < |ts| :: ts[i].pd == MM ==> ts[j].pd == MM
  }

  predicate SameKey(t: Transaction, u: Transaction) {
    Matches(t, u.pd, u.tv, u.role)
  }

  predicate Unique(ts: seq<Transaction>) {
    forall i, j | 0 <= i < |ts| && 0 <= j < |ts| && i != j :: !SameKey(ts[i], ts[j])
  }

  // ----- Transaction values -----

  // An initiator value is the least one no initiator of the protocol uses, and none only when all are used.
  lemma LeastFreeTv(ts: seq<Transaction>, pd: nat)
    ensures var r := AllocTv(ts, pd);
            && (r.Some? ==> r.value < MaxTransactions(pd) && !Taken(ts, pd, r.value))
            && (forall u | 0 <= u < MaxTransactions(pd) && (r.Some? ==> u < r.value) :: Taken(ts, pd, u))
  {
    var r := AllocTv(ts, pd);
    forall u | 0 <= u < MaxTransactions(pd) && (r.Some? ==> u < r.value)
      ensures Taken(ts, pd, u)
    {
      var i := Lookup(ts, pd, u, INITIATOR);
      assert ts[i.value] in ts;
    }
  }

  // By number: the protocols there are, and the transactions each may have.
  function Limit(pd: nat): nat {
    if pd == 3 || pd == 4 then 7 else if pd == 0 || pd == 5 || pd == 6 then 1 else 0
  }

  // Call control and supplementary services may have seven transactions of ours and of the peer's, the others one:
  // one of ours is opened exactly while such a value is free, a header with any other value is ignored, and no
  // transaction of a run ever has one.
  lemma ValuesLimited(ts: seq<Transaction>, pd: nat, octet0: nat)
    ensures Registered(pd) ==> (AllocTv(ts, pd).Some? <==> exists tv | 0 <= tv < Limit(pd) :: !Taken(ts, pd, tv))
    ensures Receive(ts, octet0).Ignored? <==> octet0 / 16 % 8 >= Limit(octet0 % 16)
  {
    LeastFreeTv(ts, pd);
    hide AllocTv, Taken, Lookup;
  }

  lemma ReachableValues(ops: seq<Op>, k: nat, i: nat)
    requires Run(ops).Done? && k < |Run(ops).w.links| && i < |Run(ops).w.links[k].transactions|
    ensures var t := Run(ops).w.links[k].transactions[i]; t.tv < Limit(t.pd) && t.link == Run(ops).w.links[k].id
  {
    ReachableInv(ops);
    var l := Run(ops).w.links[k];
    assert LinkOk(l, Run(ops).w.next);
    hide Run;
    assert l.transactions[i] in l.transactions;
  }

  predicate Taken(ts: seq<Transaction>, pd: nat, tv: nat) {
    exists t :: t in ts && Matches(t, pd, tv, INITIATOR)
  }

  // ----- Linking -----

  // Where a transaction is linked.
  function Position(ts: seq<Transaction>, t: Transaction): (p: nat)
    ensures p <= |ts|
    ensures Insert(ts, t) == ts[..p] + [t] + ts[p..]
  {
    if t.pd != MM then 0 else if ts != [] && ts[|ts| - 1].pd == MM then |ts| - 1 else |ts|
  }

  lemma InsertedUnique(ts: seq<Transaction>, t: Transaction)
    requires Unique(ts) && forall u | u in ts :: !SameKey(u, t)
    ensures Unique(Insert(ts, t))
  {
    var p := Position(ts, t);
    var r := Insert(ts, t);
    hide Insert;
    assert forall i | 0 <= i < |r| && i != p :: r[i] == ts[if i < p then i else i - 1] && r[i] in ts;
    assert r[p] == t;
    hide Matches;
    forall i, j | 0 <= i < |r| && 0 <= j < |r| && i != j
      ensures !SameKey(r[i], r[j])
    {
      if i == p {
        Symmetric(r[i], r[j]);
      } else if j != p {
        assert !SameKey(ts[if i < p then i else i - 1], ts[if j < p then j else j - 1]);
      }
    }
  }

  lemma Symmetric(t: Transaction, u: Transaction)
    ensures SameKey(t, u) == SameKey(u, t)
  {}

  lemma UniqueBefore(ts: seq<Transaction>, t: Transaction)
    requires Unique(Insert(ts, t))
    ensures Unique(ts) && forall u | u in ts :: !SameKey(u, t)
  {
    hide Insert, SameKey;
    forall i, j | 0 <= i < |ts| && 0 <= j < |ts| && i != j
      ensures !SameKey(ts[i], ts[j])
    {
      ApartBefore(ts, t, i, j);
    }
    hide Unique;
    forall u | u in ts
      ensures !SameKey(u, t)
    {
      var i :| 0 <= i < |ts| && ts[i] == u;
      ApartFromNew(ts, t, i);
    }
  }

  lemma ApartBefore(ts: seq<Transaction>, t: Transaction, i: nat, j: nat)
    requires Unique(Insert(ts, t)) && i < |ts| && j < |ts| && i != j
    ensures !SameKey(ts[i], ts[j])
  {
    hide Insert, Unique, SameKey;
    Places(ts, t);
    var p := Position(ts, t);
    Apart(Insert(ts, t), if i < p then i else i + 1, if j < p then j else j + 1);
  }

  lemma ApartFromNew(ts: seq<Transaction>, t: Transaction, i: nat)
    requires Unique(Insert(ts, t)) && i < |ts|
    ensures !SameKey(ts[i], t)
  {
    hide Insert, Unique, SameKey;
    Places(ts, t);
    var p := Position(ts, t);
    Apart(Insert(ts, t), if i < p then i else i + 1, p);
  }

  lemma Apart(ts: seq<Transaction>, i: nat, j: nat)
    requires Unique(ts) && i < |ts| && j < |ts| && i != j
    ensures !SameKey(ts[i], ts[j])
  {}

  // A new MM transaction keeps the newest first exactly while at most one other is linked.
  lemma InsertOrdered(ts: seq<Transaction>, t: Transaction)
    requires Ordered(ts) && forall u | u in ts :: u.born < t.born
    ensures Ordered(Insert(ts, t)) <==> (t.pd == MM && |ts| >= 2 ==> ts[|ts| - 2].pd != MM)
    ensures MmLast(Insert(ts, t))
  {
    hide Ordered, Insert, MmLast;
    InsertedMmLast(ts, t);
    if t.pd == MM && |ts| >= 2 && ts[|ts| - 2].pd == MM {
      ThirdMmDisorders(ts, t);
    } else {
      InsertedOrdered(ts, t);
    }
  }

  lemma Places(ts: seq<Transaction>, t: Transaction)
    ensures var p := Position(ts, t); var r := Insert(ts, t);
            && |r| == |ts| + 1 && r[p] == t
            && (forall i | 0 <= i < p :: r[i] == ts[i])
            && (forall i | p < i <= |ts| :: r[i] == ts[i - 1])
  {
    hide Insert;
  }

  lemma InsertedMmLast(ts: seq<Transaction>, t: Transaction)
    requires Ordered(ts)
    ensures MmLast(Insert(ts, t))
  {
    Places(ts, t);
    hide Insert;
    var r := Insert(ts, t);
    var p := Position(ts, t);
    forall i, j | 0 <= i < j < |r| && r[i].pd == MM
      ensures r[j].pd == MM
    {
      if i == p {
        assert t.pd == MM;
      } else if j < p {
        assert r[i] == ts[i] && r[j] == ts[j];
      } else if p < i {
        assert r[i] == ts[i - 1] && r[j] == ts[j - 1];
      } else {
        assert t.pd == MM;
      }
    }
  }

  lemma InsertedOrdered(ts: seq<Transaction>, t: Transaction)
    requires Ordered(ts) && forall u | u in ts :: u.born < t.born
    requires t.pd == MM && |ts| >= 2 ==> ts[|ts| - 2].pd != MM
    ensures Ordered(Insert(ts, t))
  {
    InsertedMmLast(ts, t);
    Places(ts, t);
    assert forall i | 0 <= i < |ts| :: ts[i] in ts;
    hide Insert;
    var r := Insert(ts, t);
    var p := Position(ts, t);
    forall i, j | 0 <= i < j < |r| && r[i].pd == MM
      ensures r[j].born < r[i].born
    {
      if p < i {
        assert r[i] == ts[i - 1] && r[j] == ts[j - 1];
      }
    }
  }

  lemma ThirdMmDisorders(ts: seq<Transaction>, t: Transaction)
    requires Ordered(ts) && t.pd == MM && |ts| >= 2 && ts[|ts| - 2].pd == MM
    requires forall u | u in ts :: u.born < t.born
    ensures !Ordered(Insert(ts, t))
  {
    var n := |ts|;
    Places(ts, t);
    hide Insert;
    assert ts[n - 1].pd == MM && ts[n - 2] in ts;
    var r := Insert(ts, t);
    assert r[n - 2] == ts[n - 2] && r[n - 1] == t;
  }

  // With one value per role there are never more than two.
  lemma AtMostTwoMm(ts: seq<Transaction>, t: Transaction)
    requires Unique(Insert(ts, t)) && Ordered(ts) && t.pd == MM && t.tv == 0
    requires forall u | u in ts :: u.pd == MM ==> u.tv == 0
    ensures |ts| >= 2 ==> ts[|ts| - 2].pd != MM
  {
    UniqueBefore(ts, t);
    assert forall i | 0 <= i < |ts| :: ts[i] in ts && !SameKey(ts[i], t);
  }

  lemma RemoveKeeps(ts: seq<Transaction>, i: nat)
    requires i < |ts|
    ensures Ordered(ts) ==> Ordered(Without(ts, i))
    ensures Unique(ts) ==> Unique(Without(ts, i))
  {
    var r := Without(ts, i);
    assert forall j | 0 <= j < |r| :: r[j] == ts[if j < i then j else j + 1];
  }

  lemma UpdateKeeps(ts: seq<Transaction>, i: nat, mb: Option<nat>)
    requires i < |ts|
    ensures Ordered(ts) ==> Ordered(ts[i := ts[i].(mb := mb)])
    ensures Unique(ts) ==> Unique(ts[i := ts[i].(mb := mb)])
  {}

  lemma MovedKeeps(ts: seq<Transaction>, link: nat)
    ensures Ordered(ts) ==> Ordered(Moved(ts, link))
    ensures Unique(ts) ==> Unique(Moved(ts, link))
  {}

  // Moving onto a link that carries transactions of its own keeps MM last exactly if it has no MM
  // transaction or receives nothing else.
  lemma JoinOrder(l: Link, req: Link)
    requires MmLast(l.transactions) && MmLast(req.transactions)
    ensures MmLast(Joined(l, req).transactions) <==>
            (forall t | t in l.transactions :: t.pd != MM) || (forall t | t in req.transactions :: t.pd == MM)
  {
    var a, b := l.transactions, Moved(req.transactions, l.id);
    var ts := a + b;
    if i :| 0 <= i < |a| && a[i].pd == MM {
      if j :| 0 <= j < |b| && b[j].pd != MM {
        assert ts[i] == a[i] && ts[|a| + j] == b[j];
        assert a[i] in l.transactions && req.transactions[j] in req.transactions;
      } else {
        forall t | t in req.transactions
          ensures t.pd == MM
        {
          var j :| 0 <= j < |b| && req.transactions[j] == t;
          assert b[j].pd == MM;
        }
      }
    } else {
      assert forall t | t in l.transactions :: t.pd != MM;
    }
  }

  // Answering on a link without transactions gives it exactly those of the paging link, in order and
  // relinked; every queued message is sent once, in order; the MM endpoint follows; the paging link goes.
  lemma AnswerConservesWork(w: World, k: nat, r: nat)
    requires Inv(w) && k < |w.links| && r < |w.links| && k != r && w.links[k].transactions == [] && w.links[r].paging
    requires multiset(w.endpoints)[w.links[r].id] <= 1
    ensures var o := CompleteIndirect(w, k, r); var l := w.links[k]; var req := w.links[r];
            && o.Done?
            && o.w.links == Dropped(w.links[k := Joined(l, req)], r)
            && |Joined(l, req).transactions| == |req.transactions|
            && (forall i | 0 <= i < |req.transactions| ::
                  Joined(l, req).transactions[i] == req.transactions[i].(link := l.id))
            && o.w.sent == w.sent + Transcript(w.bufs, l.id, req.queue)
            && |o.w.endpoints| == |w.endpoints|
            && (forall e | 0 <= e < |w.endpoints| ::
                  o.w.endpoints[e] == if w.endpoints[e] == req.id then l.id else w.endpoints[e])
  {
    var l, req := w.links[k], w.links[r];
    assert l.id != req.id;
    JoinedAlone(l, req);
    hide Inv, CompleteIndirect, Rebind, Transcript, Joined, Dropped;
    IndirectShape(w, k, r);
    RebindMoves(w.endpoints, req.id, l.id);
  }

  lemma JoinedAlone(l: Link, req: Link)
    requires l.transactions == []
    ensures var ts := Joined(l, req).transactions;
            |ts| == |req.transactions| && forall i | 0 <= i < |ts| :: ts[i] == req.transactions[i].(link := l.id)
  {}

  lemma {:induction false} RebindMoves(es: seq<nat>, from: nat, to: nat)
    requires multiset(es)[from] <= 1 && from != to
    ensures var r := Rebind(Rebind(es, from, Some(to)), from, None);
            |r| == |es| && forall e | 0 <= e < |es| :: r[e] == if es[e] == from then to else es[e]
  {
    if es != [] {
      assert es == [es[0]] + es[1..];
      if es[0] == from {
        assert from !in multiset(es[1..]);
        RebindNothing(es[1..], from);
        var m := Rebind(es, from, Some(to));
        assert m == [to] + es[1..] && m[1..] == es[1..];
      } else {
        RebindMoves(es[1..], from, to);
        var m := Rebind(es, from, Some(to));
        assert m == [es[0]] + Rebind(es[1..], from, Some(to));
        assert m[1..] == Rebind(es[1..], from, Some(to));
      }
    }
  }

  lemma {:induction false} RebindNothing(es: seq<nat>, from: nat)
    requires from !in es
    ensures Rebind(es, from, None) == es
  {
    if es != [] {
      RebindNothing(es[1..], from);
    }
  }

  // ----- Runs -----

  // Messages that open a transaction come from its initiator, and answers arrive on a link of their own.
  predicate Polite(w: World, op: Op) {
    match op
    case OpArrive(_, octet0, how) => how.Takes? ==> octet0 / 128 % 2 == 0
    case OpIndirect(k, r) => Enabled(w, op) ==> w.links[k].transactions == []
    case _ => true
  }

  predicate PoliteRun(ops: seq<Op>) {
    ops == [] || (PoliteRun(ops[..|ops| - 1]) &&
                  match Run(ops[..|ops| - 1])
                  case Done(w) => Polite(w, ops[|ops| - 1])
                  case Aborted => true)
  }

  predicate Good(ts: seq<Transaction>) {
    Ordered(ts) && Unique(ts)
  }

  ghost predicate AllGood(links: seq<Link>) {
    forall k | 0 <= k < |links| :: Good(links[k].transactions)
  }

  lemma LinkInGood(w: World, k: nat, pd: nat, tv: nat, role: Role)
    requires Inv(w) && AllGood(w.links) && k < |w.links| && tv < MaxTransactions(pd)
    requires Lookup(w.links[k].transactions, pd, tv, role).None?
    ensures AllGood(LinkIn(w, k, pd, tv, role).links)
  {
    hide Counted, Ordered, Unique, Insert, Lookup;
    var l := w.links[k];
    var t := Transaction(pd, role, tv, l.id, None, w.next);
    assert LinkOk(l, w.next) && Good(l.transactions);
    InsertedUnique(l.transactions, t);
    InsertOrdered(l.transactions, t);
    if pd == MM {
      AtMostTwoMm(l.transactions, t);
    }
  }

  lemma GoodElsewhere(links: seq<Link>, k: nat, l: Link)
    requires AllGood(links) && k < |links| && Good(l.transactions)
    ensures AllGood(links[k := l]) && AllGood(Dropped(links, k))
  {}

  // The responder role is taken whatever F says, so a new transaction keeps the values unique
  // exactly if F is clear or no responder has the same value.
  lemma ArrivalUnique(ts: seq<Transaction>, octet0: nat, link: nat, born: nat)
    requires Receive(ts, octet0).New? && Unique(ts)
    ensures var m := Receive(ts, octet0);
            Unique(Insert(ts, Transaction(m.pd, RESPONDER, m.tv, link, None, born))) <==>
            (octet0 / 128 % 2 == 1 ==> Lookup(ts, m.pd, m.tv, RESPONDER).None?)
  {
    var m := Receive(ts, octet0);
    var t := Transaction(m.pd, RESPONDER, m.tv, link, None, born);
    hide Insert, Unique;
    if Unique(Insert(ts, t)) {
      UniqueBefore(ts, t);
      assert forall i | 0 <= i < |ts| :: ts[i] in ts && !SameKey(ts[i], t);
    } else {
      if forall u | u in ts :: !SameKey(u, t) {
        InsertedUnique(ts, t);
      }
    }
  }

  // Two openings with F set are enough to duplicate a transaction.
  lemma DuplicateWithF()
    ensures var v := Arrive(Establish(EMPTY, Incoming), 0, 131, Takes).w; var w := Arrive(v, 0, 131, Takes).w;
            |w.links[0].transactions| == 2 && SameKey(w.links[0].transactions[0], w.links[0].transactions[1])
  {
    var v := Arrive(Establish(EMPTY, Incoming), 0, 131, Takes).w;
    assert v.links[0].transactions == [Transaction(CC, RESPONDER, 0, 0, None, 1)];
    assert Receive(v.links[0].transactions, 131) == New(CC, 0);
  }

  lemma ArriveGood(w: World, k: nat, octet0: nat, how: Opening)
    requires Inv(w) && AllGood(w.links) && Enabled(w, OpArrive(k, octet0, how)) && Polite(w, OpArrive(k, octet0, how))
    requires Arrive(w, k, octet0, how).Done?
    ensures AllGood(Arrive(w, k, octet0, how).w.links)
  {
    var l := w.links[k];
    var m := l.(timer := Stopped);
    RelabelInv(w, k, Stopped, l.state);
    assert l.(timer := Stopped, state := l.state) == m;
    hide Inv, Good;
    GoodElsewhere(w.links, k, m);
    hide AllGood;
    match Receive(l.transactions, octet0)
    case New(pd, tv) =>
      match how {
        case Takes =>
          assert Lookup(l.transactions, pd, tv, RESPONDER).None?;
          LinkInGood(SetLink(w, k, m), k, pd, tv, RESPONDER);
        case Answers(kind, body) => ReplyOutcome(SetLink(w, k, m), k, pd, tv, kind, body);
        case Rejects(kind, body, refused) => RejectGood(SetLink(w, k, m), k, pd, tv, kind, body, refused);
        case _ =>
      }
    case _ =>
  }

  lemma RejectGood(w: World, k: nat, pd: nat, tv: nat, kind: nat, body: seq<nat>, refused: bool)
    requires AllGood(w.links) && k < |w.links| && w.links[k].state != ESTABLISH_PENDING
    requires Reject(w, k, pd, tv, kind, body, refused).Done?
    ensures AllGood(Reject(w, k, pd, tv, kind, body, refused).w.links)
  {
    ReplyOutcome(w, k, pd, tv, kind, body);
    hide Reply, FreeAll, Rebind, Good, AllGood;
    var l := w.links[k];
    GoodElsewhere(w.links, k, l.(state := RELEASE_PENDING, releases := l.releases + 1)) by {
      GoodAt(w.links, k);
    }
  }

  lemma OpenGood(w: World, k: nat, pd: nat)
    requires Inv(w) && AllGood(w.links) && k < |w.links|
    ensures AllGood(Open(w, k, pd).links)
  {
    hide Inv, Good, AllGood;
    match AllocTv(w.links[k].transactions, pd)
    case None =>
    case Some(tv) => LinkInGood(w, k, pd, tv, INITIATOR);
  }

  lemma CloseGood(w: World, k: nat, i: nat, mode: ReleaseMode, refused: bool)
    requires AllGood(w.links) && k < |w.links| && i < |w.links[k].transactions|
    requires Close(w, k, i, mode, refused).Done?
    ensures AllGood(Close(w, k, i, mode, refused).w.links)
  {
    var v := Unlink(w, k, i);
    var l := w.links[k];
    RemoveKeeps(l.transactions, i);
    hide Without, Ordered, Unique;
    assert AllGood(v.links);
    hide AllGood, Unlink;
    UnlinkShape(w, k, i);
    GoodElsewhere(v.links, k, v.links[k].(timer := Maintain)) by {
      GoodAt(v.links, k);
    }
    GoodElsewhere(v.links, k, v.links[k].(state := RELEASE_PENDING, releases := l.releases + 1)) by {
      GoodAt(v.links, k);
    }
  }

  lemma GoodAt(links: seq<Link>, k: nat)
    requires AllGood(links) && k < |links|
    ensures Good(links[k].transactions)
  {}

  lemma {:induction false} CloseAllGood(w: World, k: nat, modes: seq<ReleaseMode>)
    requires Inv(w) && AllGood(w.links) && k < |w.links| && |modes| == |w.links[k].transactions|
    requires w.links[k].state == RELEASED
    ensures CloseAll(w, k, modes).Done? && AllGood(CloseAll(w, k, modes).w.links)
    decreases |modes|
  {
    hide Inv, AllGood, Close;
    if |modes| > 0 {
      CloseDown(w, k, modes[0]);
      CloseInv(w, k, 0, modes[0], false);
      CloseGood(w, k, 0, modes[0], false);
      if |modes| > 1 {
        CloseAllGood(Close(w, k, 0, modes[0], false).w, k, modes[1..]);
      }
    }
  }

  lemma ShutdownGood(w: World, k: nat, modes: seq<ReleaseMode>)
    requires Inv(w) && AllGood(w.links) && k < |w.links| && |modes| == |w.links[k].transactions|
    ensures Shutdown(w, k, modes).Done? && AllGood(Shutdown(w, k, modes).w.links)
  {
    var l := w.links[k];
    ShutdownInv(w, k, modes);
    DownInv(w, k);
    GoodElsewhere(w.links, k, l.(state := RELEASED, paging := false));
    hide Inv, CloseAll, AllGood;
    if l.transactions == [] {
      GoodElsewhere(Down(w, k).links, k, l);
    } else {
      CloseAllGood(Down(w, k), k, modes);
    }
  }

  lemma SendGood(w: World, k: nat, i: nat, kind: nat, body: seq<nat>)
    requires AllGood(w.links) && k < |w.links| && i < |w.links[k].transactions| && Send(w, k, i, kind, body).Done?
    ensures AllGood(Send(w, k, i, kind, body).w.links)
  {
    var l := w.links[k];
    UpdateKeeps(l.transactions, i, Some(w.next));
    hide Ordered, Unique;
  }

  lemma IndirectGood(w: World, k: nat, r: nat)
    requires Inv(w) && AllGood(w.links) && k < |w.links| && r < |w.links| && k != r && w.links[k].transactions == []
    requires w.links[r].paging
    ensures AllGood(CompleteIndirect(w, k, r).w.links)
  {
    hide CompleteIndirect, Inv, Ordered, Unique;
    var l, req := w.links[k], w.links[r];
    IndirectShape(w, k, r);
    assert Joined(l, req).transactions == Moved(req.transactions, l.id);
    MovedKeeps(req.transactions, l.id);
    assert Good(Joined(l, req).transactions);
    hide Moved, Joined;
  }

  lemma StepGood(w: World, op: Op)
    requires Inv(w) && AllGood(w.links) && Enabled(w, op) && Polite(w, op) && Step(w, op).Done?
    ensures AllGood(Step(w, op).w.links)
  {
    hide Inv, Good, Close, Arrive, Open, Send, CompleteIndirect, Shutdown, FreeAll, Rebind;
    EmptyGood();
    match op
    case OpOpen(k, pd) => OpenGood(w, k, pd);
    case OpArrive(k, octet0, how) => ArriveGood(w, k, octet0, how);
    case OpClose(k, i, mode, refused) => CloseGood(w, k, i, mode, refused);
    case OpSend(k, i, kind, body) => SendGood(w, k, i, kind, body);
    case OpIndirect(k, r) => IndirectGood(w, k, r);
    case OpShutdown(k, modes) => ShutdownGood(w, k, modes);
    case _ =>
  }

  // On every polite run no two transactions of a link have the same protocol, role and value, and MM
  // transactions come last with the newest first, so that a shutdown ends them after all others.
  lemma {:induction false} PoliteRunsGood(ops: seq<Op>)
    requires PoliteRun(ops)
    ensures Run(ops).Done? ==> AllGood(Run(ops).w.links)
  {
    hide Inv, Step, AllGood, Polite;
    if ops == [] {
      assert AllGood(EMPTY.links) by {
        EmptyGood();
      }
    } else {
      var before := ops[..|ops| - 1];
      PoliteRunsGood(before);
      ReachableInv(before);
      if Run(ops).Done? && Enabled(Run(before).w, ops[|ops| - 1]) {
        StepGood(Run(before).w, ops[|ops| - 1]);
      }
    }
  }

  lemma EmptyGood()
    ensures AllGood(EMPTY.links) && Good([])
  {}

  // ----- Two peers -----

  // Each side's transactions are the other side's, with the roles exchanged.
  ghost predicate Mirrored(a: seq<Transaction>, b: seq<Transaction>) {
    forall pd: nat, tv: nat, role ::
      Lookup(a, pd, tv, role).Some? <==> Lookup(b, pd, tv, Opposite(role)).Some?
  }

  lemma HeaderFields(pd: nat, tv: nat, role: Role)
    requires pd < 16 && tv < 8
    ensures var o := Octet0(pd, tv, role);
            o < 256 && o % 16 == pd && o / 16 % 8 == tv && (o / 128 % 2 == 1 <==> role == RESPONDER)
  {}

  // A message of a linked transaction reaches the peer's transaction with the same value and the
  // opposite role.
  lemma MessageReachesMirror(a: seq<Transaction>, b: seq<Transaction>, i: nat)
    requires i < |a| && Registered(a[i].pd) && a[i].tv < MaxTransactions(a[i].pd)
    requires Mirrored(a, b)
    ensures var r := Receive(b, Octet0(a[i].pd, a[i].tv, a[i].role));
            r.Existing? && Matches(b[r.i], a[i].pd, a[i].tv, Opposite(a[i].role))
  {
    var t := a[i];
    HeaderFields(t.pd, t.tv, t.role);
    assert Matches(a[i], t.pd, t.tv, t.role);
    assert Lookup(a, t.pd, t.tv, t.role).Some?;
    hide Lookup, Octet0;
  }

  // The first message of a transaction opened on one side opens its mirror on the other.
  lemma OpeningKeepsMirror(a: seq<Transaction>, b: seq<Transaction>, pd: nat, t: Transaction, u: Transaction)
    requires Registered(pd) && Mirrored(a, b) && AllocTv(a, pd) == Some(t.tv)
    requires t.pd == pd && u.pd == pd && u.tv == t.tv && t.role == INITIATOR && u.role == RESPONDER
    ensures Receive(b, Octet0(pd, t.tv, INITIATOR)) == New(pd, t.tv)
    ensures Mirrored(Insert(a, t), Insert(b, u))
  {
    HeaderFields(pd, t.tv, INITIATOR);
    assert Lookup(a, pd, t.tv, INITIATOR).None?;
    assert Lookup(b, pd, t.tv, RESPONDER).None? by {
      assert Opposite(INITIATOR) == RESPONDER;
      hide Lookup;
    }
    hide Octet0, AllocTv;
    forall pd: nat, tv: nat, role
      ensures Lookup(Insert(a, t), pd, tv, role).Some? <==> Lookup(Insert(b, u), pd, tv, Opposite(role)).Some?
    {
      LookupInsert(a, t, pd, tv, role);
      LookupInsert(b, u, pd, tv, Opposite(role));
      hide Lookup, Insert;
    }
  }

  lemma LookupInsert(ts: seq<Transaction>, t: Transaction, pd: nat, tv: nat, role: Role)
    ensures Lookup(Insert(ts, t), pd, tv, role).Some? <==> Lookup(ts, pd, tv, role).Some? || Matches(t, pd, tv, role)
  {
    InsertHolds(ts, t);
    var r := Insert(ts, t);
    hide Insert;
    LookupExists(r, pd, tv, role);
    LookupExists(ts, pd, tv, role);
  }

  lemma LookupExists(ts: seq<Transaction>, pd: nat, tv: nat, role: Role)
    ensures Lookup(ts, pd, tv, role).Some? <==> exists t :: t in ts && Matches(t, pd, tv, role)
  {
    var r := Lookup(ts, pd, tv, role);
    if r.Some? {
      assert ts[r.value] in ts;
    }
    hide Lookup;
  }

  // No header is taken for a connectionless message: their transaction value is refused before.
  lemma ConnectionlessNeverReceived(ts: seq<Transaction>, octet0: nat)
    ensures !Receive(ts, octet0).Connectionless?
    ensures octet0 == Octet0(CLMS, TV_CONNECTIONLESS, INITIATOR) ==> Receive(ts, octet0) == Ignored
  {}
}
