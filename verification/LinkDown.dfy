// A link with mobility management that goes down: the loop over its transactions, in which the handler
// of an MM transaction ends the procedure in progress, whichever transaction that holds.
module LinkDown {
  import opened Common
  import opened Lce
  import opened LceInvariant
  import opened LceRuns
  import opened LceOrder
  import opened Mm
  import MmRuns
  import LceMachine

  // How the handlers of the protocols close their transactions.
  function ModeOf(t: Transaction): ReleaseMode {
    if t.pd == MM then PARTIAL else NORMAL
  }

  function Modes(ts: seq<Transaction>): seq<ReleaseMode> {
    seq(|ts|, i requires 0 <= i < |ts| => ModeOf(ts[i]))
  }

  datatype Fate = Ended(w: World) | Broken

  function EndedBy(o: Outcome): Fate {
    if o.Done? then Ended(o.w) else Broken
  }

  // The loop at transaction j, with the MM endpoint of the link. Its successor was saved before the
  // handler runs: if the handler closes that one, the loop goes on with an entry off the list.
  function DownFrom(w: World, k: nat, e: Endpoint, j: nat): Fate
    requires k < |w.links| && w.links[k].state == RELEASED && e.ts == w.links[k].transactions && j < |e.ts|
    decreases |e.ts| - j
  {
    var n := |e.ts|;
    if e.ts[j].pd != MM then
      CloseKept(w, k, j, NORMAL);
      var v := Close(w, k, j, NORMAL, false).w;
      if j == n - 1 then Ended(v) else DownFrom(v, k, e.(ts := Without(e.ts, j)), j)
    else if e.Stuck() then Broken
    else
      var i := Lookup(e.ts, MM, 0, e.current.value).value;
      CloseKept(w, k, i, PARTIAL);
      var v, f := Close(w, k, i, PARTIAL, false).w, Complete(e).e;
      if j == n - 1 then Ended(v)
      else if i == j + 1 then Broken
      else DownFrom(v, k, f, if i <= j then j else j + 1)
  }

  // Closing a transaction of a link that is down leaves the others, if there are any.
  lemma CloseKept(w: World, k: nat, i: nat, mode: ReleaseMode)
    requires k < |w.links| && i < |w.links[k].transactions| && w.links[k].state == RELEASED
    ensures var o := Close(w, k, i, mode, false); var ts := w.links[k].transactions;
            && o.Done?
            && (|ts| > 1 ==> |o.w.links| == |w.links| && o.w.links[k].transactions == Without(ts, i)
                             && o.w.links[k].state == RELEASED)
  {}

  // The role of the MM transaction that comes first in the list, if there is any.
  predicate First(ts: seq<Transaction>, x: Role) {
    var p, q := Lookup(ts, MM, 0, x), Lookup(ts, MM, 0, Opposite(x));
    p.Some? && (q.Some? ==> p.value < q.value)
  }

  // When the turn of each MM transaction comes, its procedure is the one in progress.
  predicate InTurn(e: Endpoint) {
    forall x | First(e.ts, x) :: e.current == Some(x) && (e.Linked(Opposite(x)) ==> e.Active(Opposite(x)))
  }

  // On the turn of the first the second's is, which is not right behind.
  predicate Skips(e: Endpoint) {
    exists x :: First(e.ts, x) && e.Linked(Opposite(x)) && e.current == Some(Opposite(x)) && !MmRuns.Follows(e.ts, x)
  }

  // What becomes of the loop, whatever the order of the list: in turn, it closes every transaction in list
  // order, as when each handler closes its own; if the second MM procedure is ended on the first's turn, the
  // first's transaction is left; otherwise it goes on with a freed entry, or ends a procedure that is not there.
  predicate Foreseen(w: World, k: nat, e: Endpoint)
    requires k < |w.links| && w.links[k].state == RELEASED && e.ts == w.links[k].transactions && e.ts != []
  {
    var fate := DownFrom(w, k, e, 0);
    if InTurn(e) then fate == EndedBy(CloseAll(w, k, Modes(e.ts)))
    else if Skips(e) then fate.Ended? && |fate.w.links| == |w.links| && Left(e, fate.w.links[k].transactions)
    else fate == Broken
  }

  // The first MM transaction alone.
  predicate Left(e: Endpoint, ts: seq<Transaction>) {
    |ts| == 1 && ts[0].pd == MM && First(e.ts, ts[0].role) && ts[0] in e.ts
  }

  lemma {:induction false} DownExactly(w: World, k: nat, e: Endpoint)
    requires k < |w.links| && w.links[k].state == RELEASED && e.ts == w.links[k].transactions && e.ts != []
    requires MmRuns.Inv(e)
    ensures Foreseen(w, k, e)
    decreases |e.ts|, 1
  {
    if e.ts[0].pd == MM {
      MmTurn(w, k, e);
    } else if |e.ts| == 1 {
      OtherLast(w, k, e);
    } else {
      OtherTurn(w, k, e);
    }
  }

  // ----- Other protocols -----

  lemma OtherLast(w: World, k: nat, e: Endpoint)
    requires k < |w.links| && w.links[k].state == RELEASED && e.ts == w.links[k].transactions
    requires |e.ts| == 1 && e.ts[0].pd != MM
    ensures Foreseen(w, k, e)
  {
    assert Lookup(e.ts, MM, 0, INITIATOR) == None && Lookup(e.ts, MM, 0, RESPONDER) == None;
    assert InTurn(e) by {
      hide Lookup;
    }
    CloseKept(w, k, 0, NORMAL);
    hide Close, Lookup, Complete, InTurn, Skips, Left;
  }

  lemma OtherTurn(w: World, k: nat, e: Endpoint)
    requires k < |w.links| && w.links[k].state == RELEASED && e.ts == w.links[k].transactions && |e.ts| > 1
    requires MmRuns.Inv(e) && e.ts[0].pd != MM
    ensures Foreseen(w, k, e)
    decreases |e.ts|, 0
  {
    var f := e.(ts := e.ts[1..]);
    hide Close, MmRuns.Inv, CloseAll, DownFrom, InTurn, Skips, Left;
    OthersFirst(w, k, e);
    OthersKeep(e);
    TurnKept(e);
    DownExactly(Close(w, k, 0, NORMAL, false).w, k, f);
  }

  // A head of another protocol is closed.
  lemma OthersFirst(w: World, k: nat, e: Endpoint)
    requires k < |w.links| && w.links[k].state == RELEASED && e.ts == w.links[k].transactions && |e.ts| > 1
    requires e.ts[0].pd != MM
    ensures var f := e.(ts := e.ts[1..]); var o := Close(w, k, 0, NORMAL, false);
            && o.Done? && |o.w.links| == |w.links| && o.w.links[k].transactions == f.ts && o.w.links[k].state == RELEASED
            && DownFrom(w, k, e, 0) == DownFrom(o.w, k, f, 0)
            && CloseAll(w, k, Modes(e.ts)) == CloseAll(o.w, k, Modes(f.ts))
  {
    CloseKept(w, k, 0, NORMAL);
    assert Without(e.ts, 0) == e.ts[1..];
    assert Modes(e.ts)[1..] == Modes(e.ts[1..]) && Modes(e.ts)[0] == NORMAL;
    hide Close, Lookup, Complete, InTurn, MmRuns.Inv;
  }

  // The MM endpoint does not notice.
  lemma OthersKeep(e: Endpoint)
    requires |e.ts| > 1 && MmRuns.Inv(e) && e.ts[0].pd != MM
    ensures MmRuns.Inv(e.(ts := e.ts[1..]))
  {
    var op := MmRuns.OpOthersClose(0);
    assert MmRuns.Enabled(e, op) && MmRuns.Step(e, op) == Next(e.(ts := e.ts[1..])) by {
      assert Without(e.ts, 0) == e.ts[1..];
      hide MmRuns.Inv, Lookup;
    }
    hide MmRuns.Inv, Lookup, MmRuns.Step, MmRuns.Enabled, MmRuns.Held;
    MmRuns.OthersInv(e, op);
  }

  lemma TurnKept(e: Endpoint)
    requires |e.ts| > 1 && MmRuns.Inv(e) && e.ts[0].pd != MM
    ensures var f := e.(ts := e.ts[1..]);
            && (InTurn(f) <==> InTurn(e)) && (Skips(f) <==> Skips(e))
            && (forall ts :: Left(f, ts) ==> Left(e, ts))
  {
    PlacesKept(e);
    hide MmRuns.Inv, Lookup, First, MmRuns.Follows;
    assert forall t | t in e.ts[1..] :: t in e.ts;
  }

  lemma PlacesKept(e: Endpoint)
    requires |e.ts| > 1 && MmRuns.Inv(e) && e.ts[0].pd != MM
    ensures var f := e.(ts := e.ts[1..]);
            forall x :: (First(f.ts, x) <==> First(e.ts, x)) && f.Linked(x) == e.Linked(x) && MmRuns.Follows(f.ts, x) == MmRuns.Follows(e.ts, x)
  {
    HeadAway(e, INITIATOR);
    HeadAway(e, RESPONDER);
    hide MmRuns.Inv, Lookup;
  }

  lemma HeadAway(e: Endpoint, x: Role)
    requires |e.ts| > 1 && MmRuns.Inv(e) && e.ts[0].pd != MM
    ensures var p := Lookup(e.ts, MM, 0, x);
            Lookup(e.ts[1..], MM, 0, x) == (if p.None? then None else Some(p.value - 1)) && (p.Some? ==> p.value > 0)
  {
    assert Without(e.ts, 0) == e.ts[1..];
    MmRuns.PlaceWithout(e.ts, 0, x);
    hide MmRuns.Inv, Lookup, MmRuns.Core, Without;
  }

  // ----- The turn of an MM transaction -----

  lemma MmTurn(w: World, k: nat, e: Endpoint)
    requires k < |w.links| && w.links[k].state == RELEASED && e.ts == w.links[k].transactions && e.ts != []
    requires MmRuns.Inv(e) && e.ts[0].pd == MM
    ensures Foreseen(w, k, e)
    decreases |e.ts|, 0
  {
    var x := e.ts[0].role;
    MmRuns.Found(e, 0);
    HeadFirst(e, x);
    if e.Stuck() {
      hide MmRuns.Inv, Lookup, Close, CloseAll, InTurn, Skips, Left, Complete;
    } else if e.current == Some(x) {
      OwnTurn(w, k, e);
    } else {
      OthersTurn(w, k, e);
    }
  }

  // With the first at the head, the conditions are about current alone.
  lemma HeadFirst(e: Endpoint, x: Role)
    requires Lookup(e.ts, MM, 0, x) == Some(0)
    ensures First(e.ts, x) && !First(e.ts, Opposite(x))
    ensures InTurn(e) <==> e.current == Some(x) && (e.Linked(Opposite(x)) ==> e.Active(Opposite(x)))
    ensures Skips(e) <==> e.Linked(Opposite(x)) && e.current == Some(Opposite(x)) && !MmRuns.Follows(e.ts, x)
    ensures e.Stuck() ==> !InTurn(e) && !Skips(e)
  {
    hide Lookup;
    assert forall y :: First(e.ts, y) <==> y == x;
  }

  lemma OwnTurn(w: World, k: nat, e: Endpoint)
    requires k < |w.links| && w.links[k].state == RELEASED && e.ts == w.links[k].transactions && e.ts != []
    requires MmRuns.Inv(e) && e.ts[0].pd == MM && e.current == Some(e.ts[0].role)
    requires Lookup(e.ts, MM, 0, e.ts[0].role) == Some(0)
    ensures Foreseen(w, k, e)
    decreases |e.ts|, -1
  {
    var x := e.ts[0].role;
    hide Close, Lookup, Complete, First, Endpoint.Active, Endpoint.Linked;
    HeadFirst(e, x);
    CloseKept(w, k, 0, PARTIAL);
    assert Modes(e.ts)[1..] == Modes(e.ts[1..]) && Modes(e.ts)[0] == PARTIAL && Without(e.ts, 0) == e.ts[1..];
    hide InTurn, Skips, Left;
    if |e.ts| > 1 {
      MmRuns.CompleteInv(e);
      MmRuns.CompletedPlaces(e);
      MmRuns.CompletedTs(e);
      hide MmRuns.Inv;
      var v, f := Close(w, k, 0, PARTIAL, false).w, Complete(e).e;
      assert f.ts == e.ts[1..];
      OneLeft(f, Opposite(x));
      DownExactly(v, k, f);
    } else {
      AloneLinked(e);
    }
  }

  lemma AloneLinked(e: Endpoint)
    requires |e.ts| == 1
    ensures !e.Linked(Opposite(e.ts[0].role))
  {}

  // With one MM transaction at most the loop is in turn exactly if that is of the procedure in progress.
  lemma OneLeft(e: Endpoint, y: Role)
    requires !e.Linked(Opposite(y))
    ensures InTurn(e) <==> (e.Linked(y) ==> e.current == Some(y))
    ensures !Skips(e)
  {
    hide Lookup;
    assert First(e.ts, y) <==> e.Linked(y);
    assert !First(e.ts, Opposite(y));
  }

  // The procedure in progress has the other transaction.
  lemma OthersTurn(w: World, k: nat, e: Endpoint)
    requires k < |w.links| && w.links[k].state == RELEASED && e.ts == w.links[k].transactions && e.ts != []
    requires MmRuns.Inv(e) && e.ts[0].pd == MM && e.current == Some(Opposite(e.ts[0].role)) && !e.Stuck()
    requires Lookup(e.ts, MM, 0, e.ts[0].role) == Some(0)
    ensures Foreseen(w, k, e)
  {
    var x := e.ts[0].role;
    var i := Lookup(e.ts, MM, 0, Opposite(x)).value;
    HeadFirst(e, x);
    MmRuns.OtherPlace(e.ts, 0, x);
    CloseKept(w, k, i, PARTIAL);
    hide Close, InTurn, Skips, Lookup, Complete, CloseAll, Modes;
    if i > 1 {
      MmRuns.CompleteInv(e);
      MmRuns.CompletedPlaces(e);
      MmRuns.CompletedTs(e);
      var v, f := Close(w, k, i, PARTIAL, false).w, Complete(e).e;
      assert f.ts[0] == e.ts[0];
      OthersOnly(f, x);
      hide MmRuns.Inv;
      TailEnds(v, k, f);
    }
  }

  lemma OthersOnly(f: Endpoint, x: Role)
    requires MmRuns.Inv(f) && f.ts != [] && f.ts[0].pd == MM && f.ts[0].role == x && !f.Linked(Opposite(x))
    ensures forall j | 1 <= j < |f.ts| :: f.ts[j].pd != MM
  {
    hide MmRuns.Inv, Lookup;
    MmRuns.Found(f, 0);
    forall j: nat | 1 <= j < |f.ts|
      ensures f.ts[j].pd != MM
    {
      if f.ts[j].pd == MM {
        MmRuns.Found(f, j);
      }
    }
  }

  // Behind a transaction that is left, those of other protocols are closed.
  lemma {:induction false} TailEnds(w: World, k: nat, e: Endpoint)
    requires k < |w.links| && w.links[k].state == RELEASED && e.ts == w.links[k].transactions && |e.ts| > 1
    requires forall j | 1 <= j < |e.ts| :: e.ts[j].pd != MM
    ensures var fate := DownFrom(w, k, e, 1);
            fate.Ended? && |fate.w.links| == |w.links| && fate.w.links[k].transactions == [e.ts[0]]
    decreases |e.ts|
  {
    CloseKept(w, k, 1, NORMAL);
    hide Close, Lookup, Complete;
    var v := Close(w, k, 1, NORMAL, false).w;
    assert Without(e.ts, 1) == [e.ts[0]] + e.ts[2..];
    if |e.ts| > 2 {
      TailEnds(v, k, e.(ts := Without(e.ts, 1)));
    }
  }

  // A link that goes down while its MM procedures are in turn ends all its transactions, and is destroyed
  // exactly if it had none or the last was a call.
  lemma LinkDownExactly(w: World, k: nat, e: Endpoint)
    requires LceInvariant.Inv(w) && k < |w.links| && e.ts == w.links[k].transactions && e.ts != []
    requires MmRuns.Inv(e)
    ensures var fate := DownFrom(Down(w, k), k, e, 0); var l := w.links[k]; var n := |e.ts|;
            if InTurn(e) then
              && fate.Ended?
              && (if e.ts[n - 1].pd in {CC, COMS} then fate.w.links == Dropped(w.links, k) else
                    && |fate.w.links| == |w.links|
                    && fate.w.links[k] == l.(state := RELEASED, transactions := [], paging := false,
                                             timer := if exists i :: 0 <= i < n - 1 && e.ts[i].pd == MM then Maintain else l.timer))
            else if Skips(e) then fate.Ended? && |fate.w.links| == |w.links| && Left(e, fate.w.links[k].transactions)
            else fate == Broken
  {
    hide LceInvariant.Inv, MmRuns.Inv, CloseAll, DownFrom, InTurn, Skips, Left;
    DownExactly(Down(w, k), k, e);
    var modes := Modes(e.ts);
    ShutdownDestroys(w, k, modes);
    assert PARTIAL in modes[..|modes| - 1] <==> exists i :: 0 <= i < |e.ts| - 1 && e.ts[i].pd == MM by {
      if i :| 0 <= i < |e.ts| - 1 && e.ts[i].pd == MM {
        assert modes[..|modes| - 1][i] == PARTIAL;
      }
      hide Shutdown;
    }
  }

  // The loop in place, over the link's transactions, with the MM endpoint beside it.
  method LinkShutdown(lce: LceMachine.Entity, k: nat, mme: Endpoint) returns (broken: bool)
    requires lce.Valid() && LceInvariant.Inv(lce.View()) && k < |lce.links|
    requires mme.ts == lce.links[k].transactions && mme.ts != []
    modifies lce, lce.links[k]
    ensures lce.Valid() && broken == DownFrom(Down(old(lce.View()), k), k, mme, 0).Broken?
    ensures !broken ==> DownFrom(Down(old(lce.View()), k), k, mme, 0) == Ended(lce.View())
  {
    hide LceInvariant.Inv, Close, Complete, Lookup;
    ghost var w := lce.View();
    DownInv(w, k);
    lce.links[k].state := RELEASED;
    lce.links[k].paging := false;
    assert lce.View() == Down(w, k);
    var e, j := mme, 0;
    while true
      invariant lce.Valid() && lce.links == old(lce.links) && LceInvariant.Inv(lce.View())
      invariant lce.links[k].state == RELEASED && lce.links[k].transactions == e.ts && j < |e.ts|
      invariant DownFrom(lce.View(), k, e, j) == DownFrom(Down(w, k), k, mme, 0)
      decreases |e.ts| - j
    {
      var last, mm := j == |e.ts| - 1, e.ts[j].pd == MM;
      if mm && (e.current.None? || Lookup(e.ts, MM, 0, e.current.value).None?) {
        return true;
      }
      var i := if mm then Lookup(e.ts, MM, 0, e.current.value).value else j;
      var mode := if mm then PARTIAL else NORMAL;
      CloseKept(lce.View(), k, i, mode);
      CloseInv(lce.View(), k, i, mode, false);
      if mm {
        MmRuns.CompletedTs(e);
      }
      var aborted := lce.TransactionClose(k, i, mode, false);
      if last {
        return false;
      }
      if mm && i == j + 1 {
        return true;
      }
      e := if mm then Complete(e).e else e.(ts := Without(e.ts, j));
      j := if i <= j then j else j + 1;
    }
  }

  // A registration of ours, a request to cipher from the peer, and an authentication of ours that replaces
  // the registration on its transaction: if the link now goes down, or ciphering is switched on, the loop goes
  // on with a freed entry.
  lemma ReplacedRegistration()
    ensures MmRuns.Run(PP, Carried, [MmRuns.OpRequest(LocationRegistration, true),
                                     MmRuns.OpReceive(false, CipherRequest, Fine),
                                     MmRuns.OpRequest(Authenticate, true)]) == Next(Replaced())
    ensures !InTurn(Replaced()) && !Skips(Replaced())
    ensures MmRuns.Enabled(Replaced(), MmRuns.OpEncrypted) && MmRuns.Step(Replaced(), MmRuns.OpEncrypted) == Crash
  {
    var a, b, c := MmRuns.OpRequest(LocationRegistration, true), MmRuns.OpReceive(false, CipherRequest, Fine),
                   MmRuns.OpRequest(Authenticate, true);
    hide *;
    assert [a, b, c][..2] == [a, b] && |[a, b, c]| == 3;
    RegisteringThenCipher();
    AuthenticateReplaces();
    ReplacedBreaks();
    BothEnabled();
    MmRuns.RunOn(PP, Carried, [a, b, c], Interrupted());
  }

  lemma BothEnabled()
    ensures MmRuns.Enabled(Interrupted(), MmRuns.OpRequest(Authenticate, true))
    ensures MmRuns.Enabled(Replaced(), MmRuns.OpEncrypted)
  {}

  // The registration interrupted by the request to cipher, and then replaced.
  function Interrupted(): Endpoint {
    Endpoint(PP, Slot(LocationRegistration, 3, 0, true, None), Slot(Cipher, 2, 0, false, None), Some(RESPONDER),
             [Transaction(MM, RESPONDER, 0, 0, None, 1), Transaction(MM, INITIATOR, 0, 0, None, 0)], true, 0, 2, Carried)
  }

  function Replaced(): Endpoint {
    Interrupted().(ini := Slot(Authenticate, 1, 0, true, None), current := Some(INITIATOR))
  }

  lemma ReplacedBreaks()
    ensures !InTurn(Replaced()) && !Skips(Replaced()) && MmRuns.Step(Replaced(), MmRuns.OpEncrypted) == Crash
  {
    var g := Replaced();
    BothLinked();
    hide Lookup;
    HeadFirst(g, RESPONDER);
    hide InTurn, Skips, Complete;
  }

  lemma BothLinked()
    ensures var ts := Interrupted().ts; Lookup(ts, MM, 0, RESPONDER) == Some(0) && Lookup(ts, MM, 0, INITIATOR) == Some(1)
  {}

  lemma AuthenticateReplaces()
    ensures MmRuns.Step(Interrupted(), MmRuns.OpRequest(Authenticate, true)) == Next(Replaced())
  {
    BothLinked();
    hide Lookup, AllocTv;
  }

  lemma RegisteringThenCipher()
    ensures MmRuns.Run(PP, Carried, [MmRuns.OpRequest(LocationRegistration, true), MmRuns.OpReceive(false, CipherRequest, Fine)])
            == Next(Interrupted())
  {
    var a, b := MmRuns.OpRequest(LocationRegistration, true), MmRuns.OpReceive(false, CipherRequest, Fine);
    assert [a, b][..1] == [a] && [a][..0] == [];
    MmRuns.Registering();
    CipherReceived();
    hide MmRuns.Inv, Lookup, ReceiveMm, Request, Initiate;
    assert MmRuns.Run(PP, Carried, []) == Next(Initial(PP, Carried));
    hide MmRuns.Run;
    MmRuns.RunOn(PP, Carried, [a], Initial(PP, Carried));
    MmRuns.RunOn(PP, Carried, [a, b], MmRuns.Registered(None));
  }

  lemma CipherReceived()
    ensures ReceiveMm(MmRuns.Registered(None), false, CipherRequest, Fine) == Next(Interrupted())
  {
    var e, t := MmRuns.Registered(None), Transaction(MM, INITIATOR, 0, 0, None, 0);
    assert Lookup([t], MM, 0, RESPONDER) == None;
    hide Lookup;
    assert Confirmed(e).ts == Interrupted().ts;
  }
}
