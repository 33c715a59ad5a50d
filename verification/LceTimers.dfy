// The timers of links in the Link Control Entity's runs: when one outlives its link, which its callback then
// follows.
module LceTimers {
  import opened Common
  import opened Lce
  import opened LceInvariant
  import opened LceRuns

  // The page timer runs on pending links only, and those have no other; at most one release timer runs, on a
  // link that was released.
  predicate Kept(l: Link) {
    && (l.paging ==> l.state == ESTABLISH_PENDING && l.timer == Stopped)
    && l.releases <= 1 && (l.releases == 1 ==> l.state in {RELEASE_PENDING, RELEASED})
  }

  predicate AllKept(links: seq<Link>) {
    forall k | 0 <= k < |links| :: Kept(links[k])
  }

  // No timer runs without its link, and none will because of two on one.
  predicate Tidy(w: World) {
    w.stale == 0 && AllKept(w.links)
  }

  // Giving up a call on a link that is being paged, and releasing a link once more.
  predicate Strands(w: World, op: Op)
    requires Enabled(w, op)
  {
    match op
    case OpClose(k, i, mode, refused) =>
      var l := w.links[k];
      && |l.transactions| == 1
      && (if l.state == ESTABLISH_PENDING then l.paging && l.transactions[i].pd in {CC, COMS}
          else l.state != RELEASED && mode == NORMAL && !refused && l.releases == 1)
    case _ => false
  }

  lemma KeptElsewhere(links: seq<Link>, k: nat, l: Link)
    requires AllKept(links) && k < |links|
    ensures Kept(links[k]) && AllKept(Dropped(links, k))
    ensures Kept(l) <==> AllKept(links[k := l])
  {
    assert links[k := l][k] == l;
  }

  lemma CloseTidy(w: World, k: nat, i: nat, mode: ReleaseMode, refused: bool)
    requires Tidy(w) && k < |w.links| && i < |w.links[k].transactions| && Close(w, k, i, mode, refused).Done?
    ensures Tidy(Close(w, k, i, mode, refused).w) <==> !Strands(w, OpClose(k, i, mode, refused))
  {
    var l := w.links[k];
    var m := l.(transactions := Without(l.transactions, i));
    assert m.transactions == [] <==> |l.transactions| == 1;
    KeptElsewhere(w.links, k, m);
    KeptElsewhere(w.links, k, m.(timer := Maintain));
    KeptElsewhere(w.links, k, m.(state := RELEASE_PENDING, releases := m.releases + 1));
    KeptRules(l, m);
    CloseShape(w, k, i, mode, refused);
    hide Close, Without, Kept, AllKept, Dropped, Strays;
  }

  lemma KeptRules(l: Link, m: Link)
    requires Kept(l) && m == l.(transactions := m.transactions)
    ensures Kept(m) && (l.state != ESTABLISH_PENDING ==> Kept(m.(timer := Maintain)))
    ensures l.state != ESTABLISH_PENDING ==>
              (Kept(m.(state := RELEASE_PENDING, releases := m.releases + 1)) <==> l.releases == 0)
    ensures l.paging ==> l.state == ESTABLISH_PENDING
    ensures Strays(l) == (if l.paging then 1 else 0) && l.releases <= 1
  {}

  // What closing does to links and timers.
  lemma CloseShape(w: World, k: nat, i: nat, mode: ReleaseMode, refused: bool)
    requires k < |w.links| && i < |w.links[k].transactions| && Close(w, k, i, mode, refused).Done?
    ensures var l := w.links[k]; var t := l.transactions[i]; var v := Close(w, k, i, mode, refused).w;
            var m := l.(transactions := Without(l.transactions, i));
            if l.state == ESTABLISH_PENDING || (l.state == RELEASED && m.transactions == []) then
              if t.pd in {CC, COMS} then v.links == Dropped(w.links, k) && v.stale == w.stale + Strays(l)
              else v.links == w.links[k := m] && v.stale == w.stale
            else if mode.PARTIAL? then v.links == w.links[k := m.(timer := Maintain)] && v.stale == w.stale
            else if m.transactions != [] then v.links == w.links[k := m] && v.stale == w.stale
            else if refused then v.links == Dropped(w.links, k) && v.stale == w.stale + Strays(l)
            else v.links == w.links[k := m.(state := RELEASE_PENDING, releases := m.releases + 1)] && v.stale == w.stale
  {
    hide FreeAll, FreeIf, Rebind, Without;
    var l := w.links[k];
    assert Dropped(w.links[k := l.(transactions := Without(l.transactions, i))], k) == Dropped(w.links, k);
  }

  lemma {:induction false} CloseAllTidy(w: World, k: nat, modes: seq<ReleaseMode>)
    requires Tidy(w) && k < |w.links| && |modes| == |w.links[k].transactions| && w.links[k].state == RELEASED
    ensures CloseAll(w, k, modes).Done? ==> Tidy(CloseAll(w, k, modes).w)
    decreases |modes|
  {
    if |modes| > 0 {
      CloseDown(w, k, modes[0]);
      CloseTidy(w, k, 0, modes[0], false);
      hide Close, Tidy;
      if |modes| > 1 {
        CloseAllTidy(Close(w, k, 0, modes[0], false).w, k, modes[1..]);
      }
    }
  }

  lemma GoneTidy(w: World, k: nat)
    requires Tidy(w) && k < |w.links| && Destroy(w, k).Done? && !w.links[k].paging
    ensures Tidy(Destroy(w, k).w)
  {
    hide FreeAll, Rebind;
    KeptElsewhere(w.links, k, w.links[k]);
    assert Destroy(w, k).w.links == Dropped(w.links, k);
    hide Dropped;
  }

  lemma ShutdownTidy(w: World, k: nat, modes: seq<ReleaseMode>)
    requires Tidy(w) && k < |w.links| && |modes| == |w.links[k].transactions| && Shutdown(w, k, modes).Done?
    ensures Tidy(Shutdown(w, k, modes).w)
  {
    var l := w.links[k];
    KeptElsewhere(w.links, k, l.(state := RELEASED, paging := false));
    hide AllKept, CloseAll, Destroy;
    if modes == [] {
      GoneTidy(Down(w, k), k);
    } else {
      CloseAllTidy(Down(w, k), k, modes);
    }
  }

  lemma ArriveTidy(w: World, k: nat, octet0: nat, how: Opening)
    requires Tidy(w) && Enabled(w, OpArrive(k, octet0, how)) && Arrive(w, k, octet0, how).Done?
    ensures Tidy(Arrive(w, k, octet0, how).w)
  {
    var l := w.links[k];
    var m := l.(timer := Stopped);
    var v := SetLink(w, k, m);
    KeptElsewhere(w.links, k, m);
    hide Receive, Reply, Insert, AllKept;
    match Receive(l.transactions, octet0)
    case New(pd, tv) =>
      match how {
        case Takes => KeptElsewhere(v.links, k, LinkIn(v, k, pd, tv, RESPONDER).links[k]);
        case Answers(kind, body) => ReplyOutcome(v, k, pd, tv, kind, body);
        case Rejects(kind, body, refused) => RejectTidy(v, k, pd, tv, kind, body, refused);
        case _ =>
      }
    case _ =>
  }

  lemma RejectTidy(w: World, k: nat, pd: nat, tv: nat, kind: nat, body: seq<nat>, refused: bool)
    requires Tidy(w) && k < |w.links| && w.links[k].state != ESTABLISH_PENDING
    requires Reject(w, k, pd, tv, kind, body, refused).Done?
    ensures Tidy(Reject(w, k, pd, tv, kind, body, refused).w)
  {
    var l := w.links[k];
    ReplyOutcome(w, k, pd, tv, kind, body);
    KeptElsewhere(w.links, k, l.(state := RELEASE_PENDING, releases := l.releases + 1));
    var v := Reply(w, k, pd, tv, kind, body).w;
    hide Reply, AllKept;
    assert Tidy(v) && !l.paging && l.releases == 0;
    if refused {
      hide Destroy;
      GoneTidy(v, k);
    }
  }

  lemma IndirectTidy(w: World, k: nat, r: nat)
    requires Inv(w) && Tidy(w) && Enabled(w, OpIndirect(k, r)) && w.links[r].paging
    ensures Tidy(CompleteIndirect(w, k, r).w)
  {
    IndirectShape(w, k, r);
    var m := Joined(w.links[k], w.links[r]);
    KeptElsewhere(w.links, k, m);
    KeptElsewhere(w.links[k := m], r, m);
    IndirectStale(w, k, r);
    KeptElsewhere(w.links, r, m);
    hide CompleteIndirect, AllKept, Joined;
  }

  lemma IndirectStale(w: World, k: nat, r: nat)
    requires k < |w.links| && r < |w.links| && k != r && w.links[r].paging && w.links[r].releases <= 1
    ensures CompleteIndirect(w, k, r).Done? ==> CompleteIndirect(w, k, r).w.stale == w.stale
  {
    hide Flush, FreeAll, Rebind, Moved;
  }

  // While all timers are in order, a step leaves them so exactly if it does neither of the two.
  lemma StepTidy(w: World, op: Op)
    requires Inv(w) && Tidy(w) && Enabled(w, op) && Step(w, op).Done?
    ensures Tidy(Step(w, op).w) <==> !Strands(w, op)
  {
    hide Inv, Arrive, Close, CloseAll, CompleteIndirect, CompleteDirect, Insert, Flush, FreeIf, Free, FreeAll, Destroy, Shutdown, AllocTv;
    match op
    case OpArrive(k, octet0, how) => ArriveTidy(w, k, octet0, how);
    case OpClose(k, i, mode, refused) => CloseTidy(w, k, i, mode, refused);
    case OpRetransmit(k, i) => RetransmitInv(w, k, i);
    case OpDirect(k) => DirectTidy(w, k);
    case OpIndirect(k, r) => IndirectTidy(w, k, r);
    case OpTimer(k) => if w.links[k].timer != Stopped { TimerTidy(w, k); }
    case OpReleased(k) => GoneTidy(w, k);
    case OpShutdown(k, modes) => ShutdownTidy(w, k, modes);
    case _ =>
  }

  lemma DirectTidy(w: World, k: nat)
    requires Tidy(w) && k < |w.links|
    ensures Tidy(CompleteDirect(w, k)) || w.links[k].paging
  {
    hide Flush;
  }

  lemma TimerTidy(w: World, k: nat)
    requires Tidy(w) && k < |w.links| && w.links[k].timer != Stopped && TimerExpires(w, k).Done?
    ensures Tidy(TimerExpires(w, k).w)
  {
    KeptElsewhere(w.links, k, w.links[k].(timer := Stopped));
    if Destroy(w, k).Done? {
      GoneTidy(w, k);
    }
    hide Destroy, AllKept;
  }

  // A call that is given up while its link is being paged, and a link that is released twice: in either case a
  // timer that is left runs out and follows the link.
  lemma PageTimerOutlives()
    ensures Run([OpEstablish(Paging), OpOpen(0, CC), OpClose(0, 0, NORMAL, false), OpStale]).Aborted?
  {
    var a, b, c := OpEstablish(Paging), OpOpen(0, CC), OpClose(0, 0, NORMAL, false);
    assert [a, b, c, OpStale][..3] == [a, b, c];
    GivenUp();
    hide Run;
    RunStep([a, b, c, OpStale], Run([a, b, c]).w);
  }

  lemma GivenUp()
    ensures var o := Run([OpEstablish(Paging), OpOpen(0, CC), OpClose(0, 0, NORMAL, false)]); o.Done? && o.w.stale > 0
  {
    var a, b, c := OpEstablish(Paging), OpOpen(0, CC), OpClose(0, 0, NORMAL, false);
    assert [a, b, c][..2] == [a, b];
    Calling();
    var w := World([Link(0, ESTABLISH_PENDING, Stopped, [], [], true, 0)], map[], [], [], 1, multiset{}, 0);
    var v := Open(w, 0, CC);
    hide Run, Open, Close;
    CallOpened(w);
    CallGivenUp(v);
    RunStep([a, b, c], v);
  }

  lemma Calling()
    ensures var w := World([Link(0, ESTABLISH_PENDING, Stopped, [], [], true, 0)], map[], [], [], 1, multiset{}, 0);
            Run([OpEstablish(Paging), OpOpen(0, CC)]) == Done(Open(w, 0, CC))
  {
    var a, b := OpEstablish(Paging), OpOpen(0, CC);
    assert [a, b][..1] == [a] && [a][..0] == [];
    assert Run([]) == Done(EMPTY);
    hide Run, Open;
    RunStep([a], EMPTY);
    RunStep([a, b], Establish(EMPTY, Paging));
  }

  lemma CallOpened(w: World)
    requires w == World([Link(0, ESTABLISH_PENDING, Stopped, [], [], true, 0)], map[], [], [], 1, multiset{}, 0)
    ensures Open(w, 0, CC).links == [w.links[0].(transactions := [Transaction(CC, INITIATOR, 0, 0, None, 1)])]
  {
    assert AllocTv([], CC) == Some(0);
    hide AllocTv;
    var t := Transaction(CC, INITIATOR, 0, 0, None, 1);
    assert Insert([], t) == [t];
  }

  lemma CallGivenUp(v: World)
    requires |v.links| == 1 && |v.links[0].transactions| == 1 && v.links[0].transactions[0].pd == CC
    requires v.links[0].state == ESTABLISH_PENDING && v.links[0].paging
    ensures Close(v, 0, 0, NORMAL, false).Done? && Close(v, 0, 0, NORMAL, false).w.stale > 0
  {
    assert Without(v.links[0].transactions, 0) == [];
    hide FreeAll, FreeIf, Rebind, Without;
  }

  // ----- Runs -----

  predicate TidyRun(ops: seq<Op>) {
    ops == [] || (TidyRun(ops[..|ops| - 1]) &&
                  match Run(ops[..|ops| - 1])
                  case Done(w) => Enabled(w, ops[|ops| - 1]) ==> !Strands(w, ops[|ops| - 1])
                  case Aborted => true)
  }

  lemma {:induction false} TidyRunsKept(ops: seq<Op>)
    requires TidyRun(ops) && Run(ops).Done?
    ensures Tidy(Run(ops).w)
  {
    hide Inv, Step, Strands;
    if ops != [] {
      var before := ops[..|ops| - 1];
      TidyRunsKept(before);
      hide Tidy;
      ReachableInv(before);
      if Enabled(Run(before).w, ops[|ops| - 1]) {
        StepTidy(Run(before).w, ops[|ops| - 1]);
      }
    }
  }
}
