// Runs of the procedure arbiter: what every state satisfies, which steps crash, when a procedure may
// start, what resumes when one ends, and how often a slot retransmits.
module MmRuns {
  import opened Common
  import opened Lce
  import opened LceOrder
  import opened Mm

  datatype Op =
    | OpReceive(f: bool, msg: MmMessage, contents: Contents)
    | OpRequest(p: Procedure, sent: bool)
    | OpAnswer(p: Procedure, accept: bool, assigns: bool, sent: bool)
    | OpExpire(role: Role)
    | OpEncrypted
    | OpIwu(sent: bool)
    | OpOthersLink(t: Transaction)
    | OpOthersClose(i: nat)
    | OpMoved(front: seq<Transaction>)
    | OpCut

  // What holds in every state; a detach is always over at once.
  ghost predicate Inv(e: Endpoint) {
    Core(e) && e.ini.proc != Detach && e.resp.proc != Detach
  }

  ghost predicate Core(e: Endpoint) {
    // current is the procedure in progress, and outranks one it interrupted
    && (e.current.None? <==> !e.Active(INITIATOR) && !e.Active(RESPONDER))
    && (e.current.Some? ==> e.Active(e.current.value))
    && (e.Active(INITIATOR) && e.Active(RESPONDER) ==>
          e.At(e.current.value).priority < e.At(Opposite(e.current.value)).priority)
    && RankedAs(e.ini, e.mode) && RankedAs(e.resp, Other(e.mode))
    // an initiator procedure is what holds the initiator transaction; only two kinds of responder
    // procedure can be without one
    && (e.Active(INITIATOR) <==> e.Linked(INITIATOR))
    && (e.Active(RESPONDER) && !e.Linked(RESPONDER) ==> e.resp.proc == Authenticate || e.resp.proc == Cipher)
    && UniqueMm(e.ts)
    && (forall t | t in e.ts :: t.pd == MM ==> t.tv == 0)
    // only procedures of ours are timed
    && (e.ini.timer ==> e.Active(INITIATOR)) && !e.resp.timer
    && e.ini.retransmissions < 256 && e.resp.retransmissions == 0
    // what was kept: by the fixed part the identity of a request, by the portable part that of an accept
    && (e.mode == FP ==> e.ini.kept.None? && e.ini.proc != LocationRegistration)
    && (e.mode == FP ==> e.resp.kept in {None, Some(IpuiIdentity)})
    && (e.mode == PP ==> e.resp.kept.None?)
  }

  // The procedures that each side starts.
  predicate StartedBy(p: Procedure, side: Mode) {
    match p
    case NoProcedure => false
    case AccessRights => side == PP
    case LocationRegistration => side == PP
    case Detach => side == PP
    case AuthenticateUser => side == FP
    case KeyAllocation => side == FP
    case TemporaryIdentityAssignment => side == FP
    case Identification => side == FP
    case _ => true
  }

  // A slot whose procedure the given side started: all of the fixed part's have the same rank, the portable
  // part's authentication is above them and its others are below, even if a registration has become an assignment.
  predicate RankedAs(s: Slot, side: Mode) {
    s.proc != NoProcedure ==>
      && (StartedBy(s.proc, side) || (side == PP && s.proc == TemporaryIdentityAssignment))
      && s.priority == if side == FP then 2 else if s.proc == Authenticate then 1 else 3
  }

  // A responder procedure has its transaction.
  predicate Held(e: Endpoint) {
    e.Active(RESPONDER) ==> e.Linked(RESPONDER)
  }

  // No two MM transactions have the same role and value.
  predicate UniqueMm(ts: seq<Transaction>) {
    forall i, j | 0 <= i < |ts| && 0 <= j < |ts| && i != j :: ts[i].pd == MM ==> !SameKey(ts[i], ts[j])
  }

  // The procedures that have a request primitive, and those that have a response primitive.
  const REQUESTS := {AccessRights, AccessRightsTerminate, Authenticate, KeyAllocation, LocationRegistration,
                     TemporaryIdentityAssignment, Identification, Cipher, ParameterRetrieval, Detach}
  const RESPONSES := {AccessRights, AccessRightsTerminate, Authenticate, LocationRegistration,
                      TemporaryIdentityAssignment, Identification, Cipher, ParameterRetrieval}

  // Messages and indications come from the socket of a link; a paged link is answered on another one.
  predicate Enabled(e: Endpoint, op: Op) {
    match op
    case OpReceive(_, msg, c) =>
      e.carrier != Paged && (msg.LocateAccept? && c != Malformed ==> (c == Lacking <==> msg.id == NoIdentity))
    case OpRequest(p, _) => p in REQUESTS
    case OpAnswer(p, _, _, _) => p in RESPONSES
    case OpExpire(role) => e.At(role).timer
    case OpEncrypted => e.carrier != Paged
    case OpOthersLink(t) => t.pd != MM
    case OpOthersClose(i) => i < |e.ts| && e.ts[i].pd != MM
    case OpMoved(front) => e.carrier == Paged && forall t | t in front :: t.pd != MM
    case _ => true
  }

  function Step(e: Endpoint, op: Op): Progress
    requires Enabled(e, op)
  {
    match op
    case OpReceive(f, msg, c) => ReceiveMm(e, f, msg, c)
    case OpRequest(p, sent) => Request(e, p, sent)
    case OpAnswer(p, accept, assigns, sent) => Answer(e, p, accept, assigns, sent)
    case OpExpire(role) => Expire(e, role)
    case OpEncrypted => Encrypted(e, 0)
    case OpIwu(sent) => IwuRequest(e, sent)
    case OpOthersLink(t) => Next(OthersLink(e, t))
    case OpOthersClose(i) => Next(OthersClose(e, i))
    case OpMoved(front) => Next(Moving(e, front))
    case OpCut => Next(e.(carrier := Cut))
  }

  lemma UniqueMmInsert(ts: seq<Transaction>, t: Transaction)
    requires UniqueMm(ts) && (t.pd == MM ==> Lookup(ts, MM, t.tv, t.role).None?)
    ensures UniqueMm(Insert(ts, t))
  {
    Places(ts, t);
    var p := Position(ts, t);
    var r := Insert(ts, t);
    hide Insert, Lookup;
    forall i, j | 0 <= i < |r| && 0 <= j < |r| && i != j && r[i].pd == MM
      ensures !SameKey(r[i], r[j])
    {
      if i != p && j != p {
        assert r[i] == ts[if i < p then i else i - 1] && r[j] == ts[if j < p then j else j - 1];
      } else if i == p {
        assert r[j] == ts[if j < p then j else j - 1];
      } else {
        assert r[i] == ts[if i < p then i else i - 1];
      }
    }
  }

  lemma UniqueMmWithout(ts: seq<Transaction>, i: nat)
    requires i < |ts| && UniqueMm(ts)
    ensures UniqueMm(Without(ts, i))
    ensures forall t | t in Without(ts, i) :: t in ts
  {
    var r := Without(ts, i);
    assert forall j | 0 <= j < |r| :: r[j] == ts[if j < i then j else j + 1];
  }

  // Removing a transaction takes its own role's lookup away and no other's.
  lemma LookupWithout(ts: seq<Transaction>, i: nat, tv: nat, role: Role)
    requires i < |ts| && UniqueMm(ts)
    ensures Lookup(Without(ts, i), MM, tv, role).Some? <==> Lookup(ts, MM, tv, role).Some? && !Matches(ts[i], MM, tv, role)
  {
    var r := Without(ts, i);
    var a, b := Lookup(ts, MM, tv, role), Lookup(r, MM, tv, role);
    hide Lookup;
    assert forall j | 0 <= j < |r| :: r[j] == ts[if j < i then j else j + 1];
    if a.Some? && a.value != i {
      assert r[if a.value < i then a.value else a.value - 1] == ts[a.value];
      assert !SameKey(ts[a.value], ts[i]);
    }
    if b.Some? {
      var j := if b.value < i then b.value else b.value + 1;
      assert Matches(ts[j], MM, tv, role);
      assert !SameKey(ts[j], ts[i]);
    }
  }

  lemma LinkingInv(e: Endpoint, role: Role)
    requires UniqueMm(e.ts) && !e.Linked(role) && forall t | t in e.ts :: t.pd == MM ==> t.tv == 0
    ensures var f := Linking(e, role, 0);
            && UniqueMm(f.ts) && f.Linked(role) && (f.Linked(Opposite(role)) <==> e.Linked(Opposite(role)))
            && forall t | t in f.ts :: t.pd == MM ==> t.tv == 0
  {
    var t := Transaction(MM, role, 0, 0, None, e.next);
    UniqueMmInsert(e.ts, t);
    LookupInsert(e.ts, t, MM, 0, role);
    LookupInsert(e.ts, t, MM, 0, Opposite(role));
    InsertContents(e.ts, t);
    hide Insert, Lookup;
  }

  lemma InsertContents(ts: seq<Transaction>, t: Transaction)
    ensures forall u :: u in Insert(ts, t) <==> u in ts || u == t
  {
    LceInvariant.InsertHolds(ts, t);
  }

  // The one initiator value of MM is free exactly while no initiator procedure runs.
  lemma MmValue(ts: seq<Transaction>)
    ensures AllocTv(ts, MM) == if Lookup(ts, MM, 0, INITIATOR).None? then Some(0) else None
  {
    hide Lookup;
    assert AllocFrom(ts, MM, 1) == None;
  }

  lemma PriorityRange(p: Procedure, side: Mode)
    ensures Priority(p, side) > 0 ==> p != NoProcedure
    ensures Priority(p, side) > 0 <==> StartedBy(p, side)
    ensures Priority(p, side) > 0 ==> Priority(p, side) == if side == FP then 2 else if p == Authenticate then 1 else 3
  {}

  lemma UnlinkedInv(e: Endpoint, role: Role)
    requires e.Linked(role) && UniqueMm(e.ts) && forall t | t in e.ts :: t.pd == MM ==> t.tv == 0
    ensures var f := Unlinked(e, role);
            && UniqueMm(f.ts) && !f.Linked(role) && (f.Linked(Opposite(role)) <==> e.Linked(Opposite(role)))
            && forall t | t in f.ts :: t.pd == MM ==> t.tv == 0
  {
    var i := Lookup(e.ts, MM, 0, role).value;
    UniqueMmWithout(e.ts, i);
    LookupWithout(e.ts, i, 0, role);
    LookupWithout(e.ts, i, 0, Opposite(role));
    hide Lookup;
  }

  lemma UnlinkedFrame(e: Endpoint, role: Role)
    requires e.Linked(role)
    ensures Unlinked(e, role) == e.(ts := Unlinked(e, role).ts)
  {}

  // ----- The procedures -----

  lemma InitiateInv(e: Endpoint, p: Procedure)
    requires Inv(e)
    ensures Core(Initiate(e, p)) && Initiate(e, p).resp == e.resp
    ensures e.MayInitiate(p) ==> Initiate(e, p).Linked(INITIATOR) && Initiate(e, p).current == Some(INITIATOR)
    ensures Initiate(e, p).ini.proc == if e.MayInitiate(p) then p else e.ini.proc
    ensures Initiate(e, p).Linked(RESPONDER) == e.Linked(RESPONDER)
  {
    hide Priority, HasTimeout, AllocTv, Insert;
    MmValue(e.ts);
    PriorityRange(p, e.mode);
    if e.MayInitiate(p) {
      assert e.Linked(INITIATOR) <==> e.Active(INITIATOR);
      if !e.Linked(INITIATOR) {
        LinkingInv(e, INITIATOR);
      }
      var f := if e.Active(INITIATOR) then e else Linking(e, INITIATOR, 0);
      hide Lookup, UniqueMm, Inv, Core;
      OccupiedInv(e, f, Initiate(e, p).ini);
    }
  }

  // A slot of ours is taken, with its transaction linked.
  lemma OccupiedInv(e: Endpoint, f: Endpoint, s: Slot)
    requires Inv(e) && f == e.(ts := f.ts, next := f.next) && s.proc != NoProcedure && RankedAs(s, e.mode)
    requires e.current.Some? ==> s.priority < e.At(e.current.value).priority
    requires s.kept.None? && (e.mode == FP ==> s.proc != LocationRegistration)
    requires s.retransmissions == e.ini.retransmissions
    requires UniqueMm(f.ts) && (forall t | t in f.ts :: t.pd == MM ==> t.tv == 0)
    requires f.Linked(INITIATOR) && f.Linked(RESPONDER) == e.Linked(RESPONDER)
    ensures Core(f.(ini := s, current := Some(INITIATOR)))
  {
    hide Lookup, UniqueMm;
  }

  // Responding keeps the invariant, but may leave a procedure without a transaction.
  lemma RespondInv(e: Endpoint, p: Procedure)
    requires Inv(e) && (e.Linked(RESPONDER) || p == Authenticate || p == Cipher)
    ensures Core(Respond(e, p)) && (p != Detach ==> Inv(Respond(e, p)))
  {
    PriorityRange(p, Other(e.mode));
    hide Lookup, UniqueMm, Priority;
  }

  lemma ConfirmedInv(e: Endpoint)
    requires Inv(e) && !e.Linked(RESPONDER)
    ensures Inv(Confirmed(e)) && Confirmed(e).Linked(RESPONDER)
    ensures Confirmed(e) == e.(ts := Confirmed(e).ts, next := e.next + 1, known := true)
  {
    LinkingInv(e, RESPONDER);
    hide Lookup, UniqueMm, Insert;
  }

  // Ending the current procedure frees its slot and its transaction, and resumes exactly the
  // procedure it had interrupted, if any. It crashes exactly if there is none, or if it is one of the
  // peer's without a transaction.
  lemma CompleteResumes(e: Endpoint)
    requires Core(e)
    ensures Complete(e).Crash? <==> e.current.None? || (e.current == Some(RESPONDER) && !e.Linked(RESPONDER))
    ensures Complete(e).Next? ==>
              var role := e.current.value; var f := Complete(e).e;
              && Core(f) && !f.Active(role) && !f.Linked(role)
              && (Inv(f) <==> e.At(Opposite(role)).proc != Detach)
              && f.At(Opposite(role)) == e.At(Opposite(role)) && f.Linked(Opposite(role)) == e.Linked(Opposite(role))
              && f.current == (if e.Active(Opposite(role)) then Some(Opposite(role)) else None)
  {
    if !e.Stuck() {
      UnlinkedInv(e, e.current.value);
      hide Lookup, UniqueMm, Unlinked, Insert;
      UnlinkedFrame(e, e.current.value);
    }
  }

  // A detach is carried out in one go: respond, and complete at once; when it was good, once more.
  lemma DetachInv(e: Endpoint, c: Contents)
    requires Inv(e) && e.Linked(RESPONDER) && e.MayRespond(Detach)
    ensures var r := Requested(e, DetachNotice, c);
            && (r.Next? ==> Inv(r.e) && !r.e.Active(RESPONDER))
            && (r.Crash? <==> c == Lacking || (c == Fine && !e.Active(INITIATOR)))
  {
    hide *;
    DetachEnds(e);
    DetachIs(e, c);
  }

  lemma DetachIs(e: Endpoint, c: Contents)
    requires e.MayRespond(Detach)
    ensures Requested(e, DetachNotice, c) ==
            match c
            case Malformed => Complete(Respond(e, Detach))
            case Lacking => Crash
            case Mistaken => Complete(Respond(e, Detach))
            case Fine => CompleteTwice(Respond(e, Detach))
  {
    hide Complete, CompleteTwice, Respond, Lookup, Priority;
  }

  lemma DetachEnds(e: Endpoint)
    requires Inv(e) && e.Linked(RESPONDER) && e.MayRespond(Detach)
    ensures var r := Complete(Respond(e, Detach)); r.Next? && Inv(r.e) && !r.e.Active(RESPONDER)
    ensures var r := CompleteTwice(Respond(e, Detach));
            (r.Crash? <==> !e.Active(INITIATOR)) && (r.Next? ==> Inv(r.e) && !r.e.Active(RESPONDER))
  {
    RespondInv(e, Detach);
    RespondShape(e, Detach);
    var f := Respond(e, Detach);
    NoDetach(e);
    hide Inv, Core, Complete, Respond, Lookup, Priority;
    CompleteResumes(f);
    var g := Complete(f).e;
    CurrentActive(g);
    CompleteResumes(g);
  }

  lemma NoDetach(e: Endpoint)
    requires Inv(e)
    ensures e.ini.proc != Detach && e.resp.proc != Detach && Core(e)
  {}

  // A slot's own changes that touch neither its procedure nor its priority.
  lemma SlotInv(e: Endpoint, role: Role, s: Slot, n: nat)
    requires Inv(e)
    requires s == e.At(role).(retransmissions := s.retransmissions, timer := s.timer)
    requires if role == INITIATOR then s.retransmissions < 256 && (s.timer ==> e.Active(INITIATOR))
             else s.retransmissions == 0 && !s.timer
    ensures Inv(e.With(role, s).(resent := n))
  {
    hide UniqueMm, Lookup;
  }

  // A registration goes on as an assignment.
  lemma RelabelInv(e: Endpoint, role: Role, kept: Option<Identity>)
    requires Inv(e) && e.At(role).proc == LocationRegistration && (role == INITIATOR || kept == e.resp.kept)
    ensures Inv(e.With(role, e.At(role).(proc := TemporaryIdentityAssignment, kept := kept)))
  {
    hide UniqueMm, Lookup;
  }

  // Only an initiator's slot is ever timed. Its first expiry retransmits; any other ends the procedure in
  // progress, so the slot that timed out is freed exactly if it was not interrupted.
  lemma ExpireEndsCurrent(e: Endpoint, role: Role)
    requires Inv(e) && e.At(role).timer
    ensures role == INITIATOR
    ensures Expire(e, role).Crash? <==> e.ini.retransmissions != 0 && e.Stuck()
    ensures Expire(e, role).Next? ==>
              var f := Expire(e, role).e;
              && Inv(f)
              && (e.ini.retransmissions == 0 ==> f.ini == e.ini.(retransmissions := 1) && f.current == e.current)
              && (e.ini.retransmissions != 0 ==>
                    && (f.Active(INITIATOR) <==> e.current == Some(RESPONDER)) && !f.ini.timer
                    && !f.Active(e.current.value)
                    && f.current == (if e.Active(Opposite(e.current.value)) then Some(Opposite(e.current.value)) else None))
  {
    Timed(e, role);
    hide Inv, Lookup, Complete;
    if e.ini.retransmissions == 0 {
      SlotInv(e, role, e.ini.(retransmissions := 1), e.resent + 1);
    } else {
      ExpireAgain(e);
    }
  }

  lemma ExpireAgain(e: Endpoint)
    requires Inv(e) && e.ini.timer && e.ini.retransmissions != 0
    ensures Expire(e, INITIATOR).Crash? <==> e.Stuck()
    ensures Expire(e, INITIATOR).Next? ==>
              var f := Expire(e, INITIATOR).e;
              && Inv(f) && e.current.Some? && (f.Active(INITIATOR) <==> e.current == Some(RESPONDER)) && !f.ini.timer
              && !f.Active(e.current.value)
              && f.current == (if e.Active(Opposite(e.current.value)) then Some(Opposite(e.current.value)) else None)
  {
    Timed(e, INITIATOR);
    var g := e.(ini := e.ini.(retransmissions := (e.ini.retransmissions + 1) % 256, timer := false));
    hide Inv, Core, Lookup, Complete;
    SlotInv(e, INITIATOR, g.ini, e.resent);
    assert Expire(e, INITIATOR) == Complete(g);
    NoDetach(g);
    CompleteResumes(g);
    CompletedIni(g);
  }

  lemma Timed(e: Endpoint, role: Role)
    requires Inv(e) && e.At(role).timer
    ensures role == INITIATOR && e.Active(INITIATOR) && e.ini.retransmissions < 256
    ensures e.current.Some? && e.Active(e.current.value)
  {
    hide UniqueMm, Lookup;
  }

  lemma CompletedIni(e: Endpoint)
    requires !e.ini.timer
    ensures Complete(e).Next? ==> !Complete(e).e.ini.timer
  {
    hide Lookup;
  }

  // A procedure of ours starts exactly if this side may initiate it and it outranks the one in
  // progress: its transaction is always to be had.
  lemma InitiateSucceeds(e: Endpoint, p: Procedure)
    requires Inv(e)
    ensures e.MayInitiate(p) <==>
            Priority(p, e.mode) > 0 && (e.current.Some? ==> Priority(p, e.mode) < e.At(e.current.value).priority)
    ensures Initiate(e, p) != e <==> e.MayInitiate(p)
    ensures e.MayInitiate(p) ==> Initiate(e, p).current == Some(INITIATOR) && Initiate(e, p).ini.proc == p
    ensures Initiate(e, p).resp == e.resp
  {
    MmValue(e.ts);
    hide Lookup, AllocTv, UniqueMm, Insert;
    assert e.current == Some(INITIATOR) ==> e.ini.priority == e.At(e.current.value).priority;
    PriorityRange(p, e.mode);
  }

  // By their names: the fixed part starts its procedures, and only with nothing in progress or something that the
  // portable part started, other than authentication. The portable part starts authentication over everything but
  // its own authentication, and its other procedures only with nothing in progress.
  predicate FreeFor(e: Endpoint, p: Procedure, side: Mode) {
    && StartedBy(p, side)
    && (e.current.Some? ==>
          var role := e.current.value; var starter := if role == INITIATOR then e.mode else Other(e.mode);
          if side == FP then starter == PP && e.At(role).proc != Authenticate
          else p == Authenticate && (starter == FP || e.At(role).proc != Authenticate))
  }

  // What each side may start, and take from the other, in every state.
  lemma StartsExactly(e: Endpoint, p: Procedure)
    requires Inv(e)
    ensures e.MayInitiate(p) <==> FreeFor(e, p, e.mode)
    ensures e.MayRespond(p) <==> FreeFor(e, p, Other(e.mode)) && !e.Active(RESPONDER)
    ensures Initiate(e, p) == e <==> !FreeFor(e, p, e.mode)
    ensures FreeFor(e, p, e.mode) ==> Initiate(e, p).ini.proc == p && (Initiate(e, p).ini.timer <==> p != Detach)
  {
    MmValue(e.ts);
    PriorityRange(p, e.mode);
    PriorityRange(p, Other(e.mode));
    hide Lookup, AllocTv, UniqueMm, Insert, Priority;
  }

  // ----- Messages of the peer -----

  // A request of the peer that crashes: it is malformed, and cannot be rejected or its procedure not completed
  // for want of a transaction or a link; it lacks the identity that is followed; or it is a detach whose
  // second completion finds nothing. linked says that the peer's transaction is linked when it is handled.
  predicate RequestFatal(e: Endpoint, msg: MmMessage, c: Contents, linked: bool) {
    if msg.AuthRequest? && e.ini.proc == KeyAllocation then
      c == Malformed && (e.carrier == Cut || !(e.current == Some(INITIATOR) || linked || e.known))
    else
      e.MayRespond(RequestFor(msg)) &&
      match c
      case Malformed => (Rejected(msg) && (e.carrier == Cut || !(linked || e.known))) || (!msg.AuthRequest? && !linked)
      case Lacking => Identifies(msg)
      case Mistaken => false
      case Fine => msg.DetachNotice? && !e.Active(INITIATOR)
  }

  // A request that starts a procedure of the peer without a transaction.
  predicate Orphans(e: Endpoint, msg: MmMessage, c: Contents) {
    !e.Linked(RESPONDER) &&
    match msg
    case AuthRequest => e.ini.proc != KeyAllocation && e.MayRespond(Authenticate)
    case CipherRequest => c != Malformed && e.MayRespond(Cipher)
    case CipherSuggest => c != Malformed && e.MayRespond(Cipher)
    case _ => false
  }

  lemma RequestedStep(e: Endpoint, msg: MmMessage, c: Contents)
    requires Inv(e) && RequestFor(msg) != NoProcedure
    requires e.Linked(RESPONDER) || msg.AuthRequest? || msg.CipherRequest? || msg.CipherSuggest?
    ensures var r := Requested(e, msg, c);
            && (r.Crash? <==> RequestFatal(e, msg, c, e.Linked(RESPONDER)))
            && (r.Next? ==> Inv(r.e) && (Held(e) ==> (Held(r.e) <==> !Orphans(e, msg, c))))
  {
    if msg.DetachNotice? {
      if e.MayRespond(Detach) {
        DetachInv(e, c);
      }
    } else if msg.AuthRequest? && e.ini.proc == KeyAllocation {
      CurrentActive(e);
      hide Inv, Core, UniqueMm, Complete, Lookup, Respond;
    } else {
      RequestedOther(e, msg, c);
    }
  }

  lemma RequestedOther(e: Endpoint, msg: MmMessage, c: Contents)
    requires Inv(e) && RequestFor(msg) != NoProcedure && !msg.DetachNotice?
    requires !(msg.AuthRequest? && e.ini.proc == KeyAllocation)
    requires e.Linked(RESPONDER) || msg.AuthRequest? || msg.CipherRequest? || msg.CipherSuggest?
    ensures var r := Requested(e, msg, c);
            && (r.Crash? <==> RequestFatal(e, msg, c, e.Linked(RESPONDER)))
            && (r.Next? ==> Inv(r.e) && (Held(e) ==> (Held(r.e) <==> !Orphans(e, msg, c))))
  {
    hide Inv, Core, UniqueMm, Complete, Lookup, Respond, Priority;
    var p := RequestFor(msg);
    if e.MayRespond(p) {
      RespondInv(e, p);
      var f := Respond(e, p);
      RespondShape(e, p);
      CompleteInv(f);
      PriorityRange(p, Other(e.mode));
      if p in {AccessRights, LocationRegistration} {
        KeptInv(f);
      }
    }
  }

  lemma KeptInv(e: Endpoint)
    requires Inv(e) && e.mode == FP
    ensures Inv(e.(resp := e.resp.(kept := Some(IpuiIdentity))))
  {
    hide UniqueMm, Lookup;
  }

  // Completing in a state at rest leaves one at rest.
  lemma CompleteInv(e: Endpoint)
    requires Inv(e)
    ensures Complete(e).Crash? <==> e.Stuck()
    ensures Complete(e).Next? ==>
              Inv(Complete(e).e) && (Held(e) ==> Held(Complete(e).e)) && (e.current == Some(RESPONDER) ==> Held(Complete(e).e))
  {
    NoDetach(e);
    hide Core, Complete, Lookup;
    CompleteResumes(e);
    if Held(e) {
      CompleteHolds(e);
    }
  }

  lemma RespondShape(e: Endpoint, p: Procedure)
    requires e.MayRespond(p)
    ensures var f := Respond(e, p);
            && f.ts == e.ts && f.known == e.known && f.mode == e.mode && f.ini == e.ini && f.resent == e.resent
            && f.carrier == e.carrier
            && f.current == Some(RESPONDER) && f.resp.proc == p && f.resp.retransmissions == e.resp.retransmissions
            && f.resp.timer == e.resp.timer
  {}

  // An answer that crashes: an accept of access rights without an identity, which at the fixed part it never
  // has; an acknowledged assignment that kept none; or a procedure to end that is not there or not linked.
  predicate AnswerFatal(e: Endpoint, msg: MmMessage, c: Contents) {
    && c != Malformed && Awaited(e, msg)
    && ((msg.AccessRightsAccept? && (e.mode == FP || c == Lacking))
        || (msg.AssignAck? && e.resp.kept in {None, Some(NoIdentity)})
        || (!(msg.LocateAccept? && (msg.id.TpuiIdentity? || msg.network)) && !(msg.AccessRightsAccept? && c == Mistaken) && e.Stuck()))
  }

  lemma AnsweredStep(e: Endpoint, msg: MmMessage, c: Contents)
    requires Inv(e)
    ensures var r := Answered(e, msg, c);
            && (r.Crash? <==> AnswerFatal(e, msg, c))
            && (r.Next? ==> Inv(r.e) && (Held(e) ==> Held(r.e)))
  {
    hide Inv, Complete, Lookup;
    CompleteInv(e);
    if e.ini.proc == LocationRegistration && msg.LocateAccept? {
      RelabelInv(e, INITIATOR, Some(msg.id));
    }
  }

  lemma CompleteHolds(e: Endpoint)
    requires Core(e) && Held(e)
    ensures Complete(e).Next? ==> Held(Complete(e).e)
  {
    CompleteResumes(e);
    hide Inv, Core, Complete, Lookup;
  }

  // A suggestion arrives on a confirmed transaction; it ends the procedure it finds, which is then ours.
  lemma SuggestedStep(e: Endpoint, c: Contents)
    requires Inv(e) && e.Linked(RESPONDER)
    ensures Suggested(e, c).Next? && Inv(Suggested(e, c).e) && Held(Suggested(e, c).e)
  {
    CurrentActive(e);
    hide Inv, Complete, Lookup;
    CompleteInv(e);
  }

  lemma CurrentActive(e: Endpoint)
    requires Core(e)
    ensures e.current.Some? ==> e.Active(e.current.value)
    ensures e.current.None? ==> !e.Active(INITIATOR) && !e.Active(RESPONDER)
    ensures e.Active(INITIATOR) <==> e.Linked(INITIATOR)
  {}

  // Which messages crash the arbiter: on an existing transaction as above; on a new one, if the peer's
  // transaction is linked already, or as above with that transaction.
  predicate ReceiveFatal(e: Endpoint, f: bool, msg: MmMessage, c: Contents) {
    if e.Linked(if f then INITIATOR else RESPONDER) then
      && Dispatched(msg)
      && (if RequestFor(msg) != NoProcedure then RequestFatal(e, msg, c, e.Linked(RESPONDER)) else AnswerFatal(e, msg, c))
    else
      Opens(msg) && (e.Linked(RESPONDER) || (!msg.InfoSuggest? && RequestFatal(e, msg, c, true)))
  }

  lemma ReceiveStep(e: Endpoint, f: bool, msg: MmMessage, c: Contents)
    requires Inv(e)
    ensures var r := ReceiveMm(e, f, msg, c);
            && (r.Crash? <==> ReceiveFatal(e, f, msg, c))
            && (r.Next? ==> Inv(r.e))
            && (r.Next? && Held(e) ==> (Held(r.e) <==> !(f && e.Linked(INITIATOR) && Orphans(e, msg, c))))
  {
    hide Inv, Lookup, Handle, Confirmed, RequestFatal, AnswerFatal, Orphans, Held;
    if e.Linked(if f then INITIATOR else RESPONDER) {
      OrphansDispatched(e, msg, c);
      if Dispatched(msg) {
        ReceiveOld(e, f, msg, c);
      }
    } else if Opens(msg) && !e.Linked(RESPONDER) {
      ReceiveNew(e, msg, c);
    }
  }

  lemma OrphansDispatched(e: Endpoint, msg: MmMessage, c: Contents)
    ensures Orphans(e, msg, c) ==> Dispatched(msg)
  {
    hide Lookup, Priority;
  }

  lemma ReceiveOld(e: Endpoint, f: bool, msg: MmMessage, c: Contents)
    requires Inv(e) && e.Linked(if f then INITIATOR else RESPONDER) && Dispatched(msg)
    ensures var r := Handle(e, msg, c);
            && (r.Crash? <==> if RequestFor(msg) != NoProcedure then RequestFatal(e, msg, c, e.Linked(RESPONDER)) else AnswerFatal(e, msg, c))
            && (r.Next? ==> Inv(r.e))
            && (r.Next? && Held(e) ==> (Held(r.e) <==> !(f && e.Linked(INITIATOR) && Orphans(e, msg, c))))
  {
    hide Inv, Lookup, Requested, Answered, Suggested, RequestFatal, AnswerFatal, Held;
    if RequestFor(msg) != NoProcedure {
      RequestedStep(e, msg, c);
    } else {
      AnsweredStep(e, msg, c);
    }
  }

  lemma ReceiveNew(e: Endpoint, msg: MmMessage, c: Contents)
    requires Inv(e) && Opens(msg) && !e.Linked(RESPONDER)
    ensures var r := Handle(Confirmed(e), msg, c);
            && (r.Crash? <==> !msg.InfoSuggest? && RequestFatal(e, msg, c, true))
            && (r.Next? ==> Inv(r.e) && Held(r.e))
  {
    var d := Confirmed(e);
    ConfirmedInv(e);
    CurrentActive(d);
    hide Inv, Lookup, Confirmed, Requested, Suggested, RequestFatal;
    if RequestFor(msg) != NoProcedure {
      RequestedStep(d, msg, c);
      ConfirmedFatal(e, d, msg, c);
    } else {
      SuggestedStep(d, c);
    }
  }

  lemma ConfirmedFatal(e: Endpoint, d: Endpoint, msg: MmMessage, c: Contents)
    requires d == e.(ts := d.ts, next := d.next, known := true) && d.Linked(RESPONDER)
    ensures RequestFatal(d, msg, c, true) <==> RequestFatal(e, msg, c, true)
  {
    hide Lookup, Priority;
  }

  // The procedure that a request begins goes on after it, waiting for the user, unless the request was malformed (but
  // for one to authenticate), named the wrong identity, or asks for something that is given at once.
  predicate GoesOn(mode: Mode, msg: MmMessage, c: Contents) {
    && !msg.DetachNotice?
    && (c == Malformed ==> msg.AuthRequest?)
    && (c == Mistaken ==> !(msg.AccessRightsRequest? || msg.TerminateRequest? || msg.LocateRequest? || msg.InfoRequest?
                            || msg.AssignRequest?))
    && (c != Malformed && msg.InfoRequest? ==> mode == FP)
  }

  // What a request that is taken leaves, if it does not crash: its procedure in progress with its transaction, or
  // what was there before. A well formed detach ends our procedure as well.
  lemma RequestLeaves(e: Endpoint, msg: MmMessage, c: Contents)
    requires Inv(e) && !e.Linked(RESPONDER) && RequestFor(msg) != NoProcedure && e.MayRespond(RequestFor(msg))
    requires !(msg.AuthRequest? && e.ini.proc == KeyAllocation) && ReceiveMm(e, false, msg, c).Next?
    ensures var f := ReceiveMm(e, false, msg, c).e;
            if GoesOn(e.mode, msg, c) then
              f.resp.proc == RequestFor(msg) && f.current == Some(RESPONDER) && f.Linked(RESPONDER) && f.ini == e.ini
            else
              && !f.Active(RESPONDER) && !f.Linked(RESPONDER)
              && if msg.DetachNotice? && c == Fine then !f.Active(INITIATOR) && f.current.None?
                 else f.ini == e.ini && f.current == e.current
  {
    ConfirmedInv(e);
    var d := Confirmed(e);
    var f := Respond(d, RequestFor(msg));
    RespondShape(d, RequestFor(msg));
    RespondInv(d, RequestFor(msg));
    CurrentActive(e);
    PriorityRange(RequestFor(msg), Other(e.mode));
    RequestBegun(e, msg, c);
    hide *;
    BegunLeaves(f, msg, c);
  }

  lemma RequestBegun(e: Endpoint, msg: MmMessage, c: Contents)
    requires Inv(e) && !e.Linked(RESPONDER) && RequestFor(msg) != NoProcedure && e.MayRespond(RequestFor(msg))
    requires !(msg.AuthRequest? && e.ini.proc == KeyAllocation)
    ensures Opens(msg) && ReceiveMm(e, false, msg, c) == Begun(Respond(Confirmed(e), RequestFor(msg)), msg, c)
  {
    ConfirmedInv(e);
    hide Inv, Lookup, Confirmed, Begun, Respond;
  }

  lemma BegunLeaves(f: Endpoint, msg: MmMessage, c: Contents)
    requires Core(f) && f.Linked(RESPONDER) && f.current == Some(RESPONDER) && f.resp.proc == RequestFor(msg) != NoProcedure
    requires Begun(f, msg, c).Next?
    ensures var g := Begun(f, msg, c).e; var before := if f.Active(INITIATOR) then Some(INITIATOR) else None;
            if GoesOn(f.mode, msg, c) then
              g.resp.proc == RequestFor(msg) && g.current == Some(RESPONDER) && g.Linked(RESPONDER) && g.ini == f.ini
            else
              && !g.Active(RESPONDER) && !g.Linked(RESPONDER)
              && if msg.DetachNotice? && c == Fine then !g.Active(INITIATOR) && g.current.None?
                 else g.ini == f.ini && g.current == before
  {
    EndsTheirs(f);
    hide Core, Complete, Endpoint.Active, Endpoint.Linked;
    match c case Malformed => case Lacking => case Mistaken => case Fine =>
  }

  // Completing the peer's procedure, and once more.
  lemma EndsTheirs(f: Endpoint)
    requires Core(f) && f.Linked(RESPONDER) && f.current == Some(RESPONDER)
    ensures var d, before := Complete(f), if f.Active(INITIATOR) then Some(INITIATOR) else None;
            && d.Next? && !d.e.Active(RESPONDER) && !d.e.Linked(RESPONDER) && d.e.ini == f.ini && d.e.current == before
            && (Complete(d.e).Next? ==> var g := Complete(d.e).e;
                                        !g.Active(RESPONDER) && !g.Linked(RESPONDER) && !g.Active(INITIATOR) && g.current.None?)
  {
    CompleteResumes(f);
    hide Core, Complete, Lookup;
    CompleteResumes(Complete(f).e);
  }

  // A suggestion is not answered. It ends the procedure in progress if that is ours, and otherwise leaves its
  // transaction behind.
  lemma SuggestionLeaves(e: Endpoint, c: Contents)
    requires Inv(e) && !e.Linked(RESPONDER)
    ensures var r := ReceiveMm(e, false, InfoSuggest, c);
            && r.Next? && r.e.resp == e.resp && r.e.Linked(RESPONDER)
            && if e.current == Some(INITIATOR) && !e.Active(RESPONDER) && c != Malformed
               then !r.e.Active(INITIATOR) && r.e.current.None? else r.e.ini == e.ini && r.e.current == e.current
  {
    ConfirmedInv(e);
    CurrentActive(e);
    hide Inv, Complete, Lookup, Confirmed;
    CompleteInv(Confirmed(e));
    CompleteEndsOurs(Confirmed(e));
  }

  lemma CompleteEndsOurs(e: Endpoint)
    requires Inv(e)
    ensures Complete(e).Next? ==>
              var role := e.current.value; var f := Complete(e).e;
              && !f.Active(role) && f.At(Opposite(role)) == e.At(Opposite(role)) && f.Linked(Opposite(role)) == e.Linked(Opposite(role))
              && f.current == (if e.Active(Opposite(role)) then Some(Opposite(role)) else None)
    ensures Complete(e).Crash? <==> e.current.None? || (e.current == Some(RESPONDER) && !e.Linked(RESPONDER))
  {
    hide Lookup, Complete;
    CompleteResumes(e);
  }

  // ----- Primitives of the user -----

  // A request that crashes: the message cannot be sent on a link that is down, or the key not be set on one
  // that has no socket yet.
  predicate RequestCallFatal(e: Endpoint, p: Procedure, sent: bool) {
    if p == Authenticate && e.resp.proc == KeyAllocation then sent && e.carrier == Cut
    else
      && e.MayInitiate(p) && !(p == ParameterRetrieval && e.Active(INITIATOR))
      && ((p == Cipher && e.carrier == Paged) || (sent && e.carrier == Cut))
  }

  lemma RequestStep(e: Endpoint, p: Procedure, sent: bool)
    requires Inv(e)
    ensures var r := Request(e, p, sent);
            && (r.Crash? <==> RequestCallFatal(e, p, sent))
            && (r.Next? ==> Inv(r.e) && (Held(e) ==> Held(r.e)))
  {
    if p == Authenticate && e.resp.proc == KeyAllocation {
      KeyRequest(e, sent);
    } else if e.MayInitiate(p) && !(p == ParameterRetrieval && e.Active(INITIATOR)) {
      InitiatedRequest(e, p, sent);
      hide Inv, Request, Lookup, Priority, AllocTv;
    }
  }

  lemma InitiatedRequest(e: Endpoint, p: Procedure, sent: bool)
    requires Inv(e) && e.MayInitiate(p) && !(p == ParameterRetrieval && e.Active(INITIATOR))
    requires !(p == Authenticate && e.resp.proc == KeyAllocation)
    ensures var r := Request(e, p, sent);
            && (r.Crash? <==> (p == Cipher && e.carrier == Paged) || (sent && e.carrier == Cut))
            && (r.Next? ==> Inv(r.e) && (Held(e) ==> Held(r.e)))
  {
    InitiateStep(e, p);
    hide Inv, Complete, Lookup, Initiate, Priority, AllocTv, Held;
  }

  // What a request of the user leaves, if it does not crash. If the procedure may start it is in progress, or if
  // its message was not built or needs no answer over at once, with the peer's as it was; authentication within a
  // key allocation starts nothing, and ends the procedure in progress if it was not built; anything else leaves all
  // as it was.
  lemma UserRequestLeaves(e: Endpoint, p: Procedure, sent: bool)
    requires Inv(e) && p in REQUESTS && Request(e, p, sent).Next?
    ensures var f := Request(e, p, sent).e;
            if p == Authenticate && e.resp.proc == KeyAllocation then
              if sent then f == e else e.current.Some? && !f.Active(e.current.value)
            else if FreeFor(e, p, e.mode) && !(p == ParameterRetrieval && e.Active(INITIATOR)) then
              && f.resp == e.resp
              && if sent && p != Detach && !(p == ParameterRetrieval && e.mode == FP)
                 then f.ini.proc == p && f.current == Some(INITIATOR) && f.Linked(INITIATOR)
                 else !f.Active(INITIATOR) && !f.Linked(INITIATOR) && f.current == (if e.Active(RESPONDER) then Some(RESPONDER) else None)
            else f == e
  {
    StartsExactly(e, p);
    if p == Authenticate && e.resp.proc == KeyAllocation {
      NoDetach(e);
      hide Inv, Core, Complete, Lookup;
      CompleteResumes(e);
    } else if e.MayInitiate(p) && !(p == ParameterRetrieval && e.Active(INITIATOR)) {
      InitiateInv(e, p);
      InitiateKeeps(e, p);
      hide *;
      RequestSends(e, p, sent);
      SendingLeaves(Initiate(e, p), p, sent);
    } else {
      hide Inv, Complete, Lookup, Initiate, Priority, AllocTv, Sending;
    }
  }

  lemma RequestSends(e: Endpoint, p: Procedure, sent: bool)
    requires e.MayInitiate(p) && !(p == ParameterRetrieval && e.Active(INITIATOR))
    requires !(p == Authenticate && e.resp.proc == KeyAllocation)
    ensures Request(e, p, sent) == Sending(Initiate(e, p), p, sent)
  {
    hide Sending, Initiate, Lookup, Priority, AllocTv;
  }

  lemma SendingLeaves(f: Endpoint, p: Procedure, sent: bool)
    requires Core(f) && f.current == Some(INITIATOR) && f.ini.proc == p != NoProcedure && Sending(f, p, sent).Next?
    ensures var g := Sending(f, p, sent).e;
            && g.resp == f.resp
            && if sent && p != Detach && !(p == ParameterRetrieval && f.mode == FP) then g == f
               else !g.Active(INITIATOR) && !g.Linked(INITIATOR) && g.current == if f.Active(RESPONDER) then Some(RESPONDER) else None
  {
    hide Core, Complete, Lookup;
    CompleteResumes(f);
  }

  lemma InitiateKeeps(e: Endpoint, p: Procedure)
    requires e.MayInitiate(p)
    ensures var f := Initiate(e, p); f.mode == e.mode && f.resp == e.resp && f.ini.proc == p != NoProcedure && (f.Active(RESPONDER) <==> e.Active(RESPONDER))
  {
    hide Lookup, AllocTv, Insert;
  }

  // What a response of the user leaves, if it does not crash: if it is about the procedure in progress that is over,
  // and what it had interrupted goes on, but for an accepted registration with an assignment, which goes on as one.
  lemma UserAnswerLeaves(e: Endpoint, p: Procedure, accept: bool, assigns: bool, sent: bool)
    requires Inv(e) && Answer(e, p, accept, assigns, sent).Next?
    ensures var f := Answer(e, p, accept, assigns, sent).e;
            if e.current.Some? && (e.At(e.current.value).proc == p || (p == Authenticate && e.At(e.current.value).proc == KeyAllocation)) then
              var role := e.current.value; var other := Opposite(role);
              && f.At(other) == e.At(other)
              && if p == LocationRegistration && accept && assigns && sent
                 then f == e.With(role, e.At(role).(proc := TemporaryIdentityAssignment))
                 else !f.Active(role) && !f.Linked(role) && f.current == if e.Active(other) then Some(other) else None
            else f == e
  {
    NoDetach(e);
    hide Inv, Core, Complete, Lookup;
    CompleteResumes(e);
  }

  lemma KeyRequest(e: Endpoint, sent: bool)
    requires Inv(e) && e.resp.proc == KeyAllocation
    ensures var r := Request(e, Authenticate, sent);
            && (r.Crash? <==> sent && e.carrier == Cut)
            && (r.Next? ==> Inv(r.e) && (Held(e) ==> Held(r.e)))
  {
    CurrentActive(e);
    KeyHeld(e);
    hide Inv, Complete, Lookup;
    CompleteInv(e);
  }

  lemma KeyHeld(e: Endpoint)
    requires Inv(e) && e.resp.proc == KeyAllocation
    ensures e.Linked(RESPONDER) && e.current.Some?
  {}

  // Initiating and completing at once.
  lemma InitiateStep(e: Endpoint, p: Procedure)
    requires Inv(e) && e.MayInitiate(p)
    ensures var f := Initiate(e, p);
            && (p != Detach ==> Inv(f)) && (Held(e) ==> Held(f)) && f.carrier == e.carrier && (f.CanSend() <==> e.carrier != Cut)
            && Complete(f).Next? && Inv(Complete(f).e) && (Held(e) ==> Held(Complete(f).e))
  {
    InitiateInv(e, p);
    InitiateCarrier(e, p);
    NoDetach(e);
    var f := Initiate(e, p);
    hide Core, Complete, Lookup, Initiate;
    CompleteResumes(f);
    if Held(f) {
      CompleteHolds(f);
    }
  }

  lemma InitiateCarrier(e: Endpoint, p: Procedure)
    ensures Initiate(e, p).carrier == e.carrier
  {
    hide Lookup, AllocTv, Insert;
  }

  // Answering without a procedure, without what its request brought, or without its transaction; or when the
  // link takes no messages, or no key.
  predicate AnswerCallFatal(e: Endpoint, p: Procedure, accept: bool, assigns: bool, sent: bool) {
    if e.current.None? then p != ParameterRetrieval else
      var s := e.At(e.current.value);
      && (s.proc == p || (p == Authenticate && s.proc == KeyAllocation))
      && ((accept && p in {AccessRights, LocationRegistration} && s.kept in {None, Some(NoIdentity)})
          || (accept && p == TemporaryIdentityAssignment && s.kept != Some(TpuiIdentity))
          || (accept && p == Cipher && e.carrier == Paged)
          || (!(accept && p == Cipher) && sent && !e.CanSend())
          || (!(p == LocationRegistration && accept && assigns && sent) && e.Stuck()))
  }

  lemma AnswerStep(e: Endpoint, p: Procedure, accept: bool, assigns: bool, sent: bool)
    requires Inv(e)
    ensures var r := Answer(e, p, accept, assigns, sent);
            && (r.Crash? <==> AnswerCallFatal(e, p, accept, assigns, sent))
            && (r.Next? ==> Inv(r.e) && (Held(e) ==> Held(r.e)))
  {
    hide Inv, Complete, Lookup, Held;
    if e.current.Some? {
      CompleteInv(e);
      var s := e.At(e.current.value);
      if s.proc == LocationRegistration {
        RelabelInv(e, e.current.value, s.kept);
        RelabelHolds(e, e.current.value);
      }
    }
  }

  lemma RelabelHolds(e: Endpoint, role: Role)
    requires e.At(role).proc == LocationRegistration
    ensures Held(e) <==> Held(e.With(role, e.At(role).(proc := TemporaryIdentityAssignment)))
  {
    hide Lookup;
  }

  // An assignment is accepted only by a portable part whose registration was accepted with a TPUI; the fixed
  // part always fails the assertion on the kind of the identity, or has kept none.
  lemma AssignmentAccepted(e: Endpoint, sent: bool)
    requires Inv(e) && e.current.Some? && e.At(e.current.value).proc == TemporaryIdentityAssignment
    ensures Answer(e, TemporaryIdentityAssignment, true, false, sent).Next? <==>
            && e.mode == PP && e.current == Some(INITIATOR) && e.ini.kept == Some(TpuiIdentity)
            && (sent ==> e.carrier != Cut)
  {
    CurrentActive(e);
    KeptKinds(e);
    hide Inv, Complete, Lookup;
    CompleteInv(e);
  }

  lemma KeptKinds(e: Endpoint)
    requires Inv(e)
    ensures e.mode == FP ==> e.ini.kept.None? && e.resp.kept != Some(TpuiIdentity)
    ensures e.mode == PP ==> e.resp.kept.None?
  {}

  // ----- Every step -----

  // The indication goes on with a freed entry, or ends a procedure that is not there: some transaction's
  // procedure is ciphering, but the one in progress has no transaction, or the transaction right behind.
  predicate EncryptFatal(e: Endpoint, j: nat) {
    exists role ::
      && e.Linked(role) && Lookup(e.ts, MM, 0, role).value >= j && e.At(role).proc == Cipher
      && (e.Stuck() || (e.current == Some(Opposite(role)) && Follows(e.ts, role)))
  }

  predicate Follows(ts: seq<Transaction>, role: Role) {
    && Lookup(ts, MM, 0, role).Some? && Lookup(ts, MM, 0, Opposite(role)).Some?
    && Lookup(ts, MM, 0, Opposite(role)).value == Lookup(ts, MM, 0, role).value + 1
  }

  // The steps that crash, by what can be seen before them.
  predicate Fatal(e: Endpoint, op: Op) {
    match op
    case OpReceive(f, msg, c) => ReceiveFatal(e, f, msg, c)
    case OpRequest(p, sent) => RequestCallFatal(e, p, sent)
    case OpAnswer(p, accept, assigns, sent) => AnswerCallFatal(e, p, accept, assigns, sent)
    case OpExpire(_) => e.ini.retransmissions != 0 && e.Stuck()
    case OpEncrypted => EncryptFatal(e, 0)
    case OpIwu(sent) => !e.Active(INITIATOR) && (e.current.None? || (sent && !e.CanSend()))
    case _ => false
  }

  // The steps that leave a procedure of the peer without a transaction.
  predicate Orphaning(e: Endpoint, op: Op) {
    op.OpReceive? && op.f && e.Linked(INITIATOR) && Orphans(e, op.msg, op.contents)
  }

  // ----- Ciphering switched -----

  // A transaction of MM is the one its role is looked up as.
  lemma Found(e: Endpoint, i: nat)
    requires Inv(e) && i < |e.ts| && e.ts[i].pd == MM
    ensures Lookup(e.ts, MM, 0, e.ts[i].role) == Some(i)
  {
    var t := e.ts[i];
    assert t in e.ts && Matches(t, MM, 0, t.role);
    var l := Lookup(e.ts, MM, 0, t.role);
    hide Lookup;
    assert forall k | 0 <= k < |e.ts| && Matches(e.ts[k], MM, 0, t.role) :: k == i by {
      assert forall k | 0 <= k < |e.ts| && k != i :: !SameKey(e.ts[k], e.ts[i]);
    }
  }

  lemma PlaceWithout(ts: seq<Transaction>, i: nat, role: Role)
    requires i < |ts| && UniqueMm(ts)
    ensures var p := Lookup(ts, MM, 0, role);
            Lookup(Without(ts, i), MM, 0, role) ==
            if p == None || p == Some(i) then None else Some(if p.value < i then p.value else p.value - 1)
  {
    LookupWithout(ts, i, 0, role);
    var p, r := Lookup(ts, MM, 0, role), Without(ts, i);
    var q := Lookup(r, MM, 0, role);
    hide Lookup;
    assert forall j | 0 <= j < |r| :: r[j] == ts[if j < i then j else j + 1];
    if p.Some? && p.value == i {
      assert Matches(ts[i], MM, 0, role);
    } else if p.Some? {
      assert Matches(r[if p.value < i then p.value else p.value - 1], MM, 0, role);
      assert forall k | 0 <= k < |ts| && Matches(ts[k], MM, 0, role) :: k == p.value by {
        assert forall k | 0 <= k < |ts| && k != p.value :: !SameKey(ts[k], ts[p.value]);
      }
      if q.Some? {
        assert Matches(ts[if q.value < i then q.value else q.value + 1], MM, 0, role);
      }
    }
  }

  lemma CompletedPlaces(e: Endpoint)
    requires Inv(e) && !e.Stuck()
    ensures var c := e.current.value; var f := Complete(e).e; var i := Lookup(e.ts, MM, 0, c).value;
            var p := Lookup(e.ts, MM, 0, Opposite(c));
            && Lookup(f.ts, MM, 0, c) == None
            && Lookup(f.ts, MM, 0, Opposite(c)) == (if p.None? then None else Some(if p.value < i then p.value else p.value - 1))
            && f.At(Opposite(c)).proc == e.At(Opposite(c)).proc
            && f.current == (if e.Active(Opposite(c)) then Some(Opposite(c)) else None)
  {
    var c := e.current.value;
    var i := Lookup(e.ts, MM, 0, c).value;
    NoDetach(e);
    PlaceWithout(e.ts, i, c);
    PlaceWithout(e.ts, i, Opposite(c));
    CompleteResumes(e);
    CompletedTs(e);
    assert Matches(e.ts[i], MM, 0, c);
    OtherPlace(e.ts, i, c);
    hide Inv, Core, Complete, Lookup, Without;
  }

  lemma OtherPlace(ts: seq<Transaction>, i: nat, c: Role)
    requires Lookup(ts, MM, 0, c) == Some(i)
    ensures Lookup(ts, MM, 0, Opposite(c)) != Some(i)
  {
    hide Lookup;
  }

  lemma CompletedTs(e: Endpoint)
    requires !e.Stuck()
    ensures Complete(e).e.ts == Without(e.ts, Lookup(e.ts, MM, 0, e.current.value).value)
  {
    hide Lookup;
  }

  lemma {:induction false} EncryptedStep(e: Endpoint, j: nat)
    requires Inv(e) && j <= |e.ts|
    ensures var r := Encrypted(e, j);
            && (r.Crash? <==> EncryptFatal(e, j))
            && (r.Next? ==> Inv(r.e) && (Held(e) ==> Held(r.e)) && SameCounts(e, r.e))
    decreases |e.ts| - j
  {
    hide Inv, Held, Complete, Lookup;
    if j < |e.ts| {
      var x := e.ts[j].role;
      if e.ts[j].pd == MM {
        Found(e, j);
      }
      if e.ts[j].pd == MM && e.At(x).proc == Cipher {
        if !e.Stuck() {
          EncryptedTurn(e, j);
        }
      } else {
        EncryptedStep(e, j + 1);
        NotHere(e, j);
      }
    }
  }

  lemma NotHere(e: Endpoint, j: nat)
    requires j < |e.ts| && !(e.ts[j].pd == MM && e.At(e.ts[j].role).proc == Cipher)
    ensures EncryptFatal(e, j) <==> EncryptFatal(e, j + 1)
  {
    hide Lookup;
  }

  // The turn of a transaction whose procedure is ciphering.
  lemma EncryptedTurn(e: Endpoint, j: nat)
    requires Inv(e) && j < |e.ts| && e.ts[j].pd == MM && e.At(e.ts[j].role).proc == Cipher && !e.Stuck()
    requires Lookup(e.ts, MM, 0, e.ts[j].role) == Some(j)
    ensures var r := Encrypted(e, j);
            && (r.Crash? <==> EncryptFatal(e, j))
            && (r.Next? ==> Inv(r.e) && (Held(e) ==> Held(r.e)) && SameCounts(e, r.e))
    decreases |e.ts| - j, 0
  {
    CompleteInv(e);
    CompleteCounts(e);
    var i := Lookup(e.ts, MM, 0, e.current.value).value;
    var f := Complete(e).e;
    TurnFatal(e, j);
    hide Inv, Held, Complete, Lookup, EncryptFatal;
    if i != j + 1 {
      EncryptedStep(f, if i <= j then j else j + 1);
    }
  }

  // It is fatal exactly if the transaction behind it is closed; nothing later is.
  lemma TurnFatal(e: Endpoint, j: nat)
    requires Inv(e) && j < |e.ts| && e.ts[j].pd == MM && e.At(e.ts[j].role).proc == Cipher && !e.Stuck()
    requires Lookup(e.ts, MM, 0, e.ts[j].role) == Some(j)
    ensures var i := Lookup(e.ts, MM, 0, e.current.value).value;
            && (EncryptFatal(e, j) <==> i == j + 1)
            && (i != j + 1 ==> !EncryptFatal(Complete(e).e, if i <= j then j else j + 1))
  {
    CompletedPlaces(e);
    CipherActive(e);
    var x, i := e.ts[j].role, Lookup(e.ts, MM, 0, e.current.value).value;
    hide Inv, Held, Complete, Lookup;
    if i == j + 1 {
      assert e.current == Some(Opposite(x)) && Follows(e.ts, x);
    }
  }

  lemma CipherActive(e: Endpoint)
    ensures forall role | e.At(role).proc == Cipher :: e.Active(role)
  {}

  lemma OthersInv(e: Endpoint, op: Op)
    requires Inv(e) && Enabled(e, op) && (op.OpOthersLink? || op.OpOthersClose? || op.OpMoved? || op.OpCut?)
    ensures Step(e, op).Next? && Inv(Step(e, op).e) && (Held(e) ==> Held(Step(e, op).e))
  {
    match op
    case OpOthersLink(t) =>
      UniqueMmInsert(e.ts, t);
      InsertContents(e.ts, t);
      forall role
        ensures Lookup(Insert(e.ts, t), MM, 0, role).Some? <==> e.Linked(role)
      {
        LookupInsert(e.ts, t, MM, 0, role);
      }
      hide UniqueMm, Lookup, Insert;
      OthersKeep(e, Insert(e.ts, t));
    case OpOthersClose(i) =>
      UniqueMmWithout(e.ts, i);
      forall role
        ensures Lookup(Without(e.ts, i), MM, 0, role).Some? <==> e.Linked(role)
      {
        LookupWithout(e.ts, i, 0, role);
      }
      hide UniqueMm, Lookup, Insert;
      OthersKeep(e, Without(e.ts, i));
    case OpMoved(front) =>
      FrontKeeps(e, front);
      CarrierInv(e.(ts := front + e.ts), Carried);
      hide Inv, Lookup;
    case OpCut =>
      CarrierInv(e, Cut);
      hide Inv, Lookup;
  }

  lemma CarrierInv(e: Endpoint, c: Carrier)
    requires Inv(e)
    ensures Inv(e.(carrier := c)) && (Held(e) ==> Held(e.(carrier := c)))
  {
    hide UniqueMm, Lookup;
  }

  lemma FrontKeeps(e: Endpoint, front: seq<Transaction>)
    requires Inv(e) && forall t | t in front :: t.pd != MM
    ensures Inv(e.(ts := front + e.ts)) && (Held(e) ==> Held(e.(ts := front + e.ts)))
  {
    var ts := front + e.ts;
    forall role
      ensures Lookup(ts, MM, 0, role).Some? <==> e.Linked(role)
    {
      LookupExists(ts, MM, 0, role);
      LookupExists(e.ts, MM, 0, role);
      hide Lookup;
    }
    assert forall i | 0 <= i < |ts| && ts[i].pd == MM :: i >= |front| && ts[i] == e.ts[i - |front|];
    assert UniqueMm(ts);
    hide UniqueMm, Lookup;
    OthersKeep(e, ts);
  }

  lemma OthersKeep(e: Endpoint, ts: seq<Transaction>)
    requires Inv(e) && UniqueMm(ts) && forall t | t in ts :: t.pd == MM ==> t.tv == 0
    requires forall role :: Lookup(ts, MM, 0, role).Some? <==> e.Linked(role)
    ensures Inv(e.(ts := ts)) && (Held(e) ==> Held(e.(ts := ts)))
  {
    hide UniqueMm, Lookup;
  }

  lemma IwuStep(e: Endpoint, sent: bool)
    requires Inv(e)
    ensures var r := IwuRequest(e, sent);
            && (r.Crash? <==> !e.Active(INITIATOR) && (e.current.None? || (sent && !e.CanSend())))
            && (r.Next? ==> Inv(r.e) && Held(r.e) == Held(e))
  {
    MmValue(e.ts);
    hide Lookup, AllocTv, UniqueMm;
  }

  lemma ExpireHolds(e: Endpoint, role: Role)
    requires Inv(e) && e.At(role).timer && Expire(e, role).Next? && Held(e)
    ensures Held(Expire(e, role).e)
  {
    var s := e.At(role).(retransmissions := (e.At(role).retransmissions + 1) % 256, timer := false);
    ExpireEndsCurrent(e, role);
    SlotInv(e, role, s, e.resent);
    hide Inv, Core, Complete, Lookup;
    CompleteInv(e.With(role, s));
  }

  // Every step keeps the invariant or crashes, and which steps crash can be seen beforehand.
  lemma StepInv(e: Endpoint, op: Op)
    requires Inv(e) && Enabled(e, op)
    ensures Step(e, op).Crash? <==> Fatal(e, op)
    ensures Step(e, op).Next? ==> Inv(Step(e, op).e)
  {
    hide Inv, Complete, Expire, ReceiveMm, Request, Answer, IwuRequest, Encrypted, Lookup;
    hide ReceiveFatal, RequestCallFatal, AnswerCallFatal, EncryptFatal;
    match op
    case OpReceive(f, msg, c) => ReceiveStep(e, f, msg, c);
    case OpRequest(p, sent) => RequestStep(e, p, sent);
    case OpAnswer(p, accept, assigns, sent) => AnswerStep(e, p, accept, assigns, sent);
    case OpExpire(role) => ExpireEndsCurrent(e, role);
    case OpEncrypted => EncryptedStep(e, 0);
    case OpIwu(sent) => IwuStep(e, sent);
    case _ => OthersInv(e, op);
  }

  // A responder procedure loses its transaction in exactly one kind of step.
  lemma StepHeld(e: Endpoint, op: Op)
    requires Inv(e) && Held(e) && Enabled(e, op) && Step(e, op).Next?
    ensures Held(Step(e, op).e) <==> !Orphaning(e, op)
  {
    hide Inv, Held, Complete, Expire, ReceiveMm, Request, Answer, IwuRequest, Encrypted, Lookup, Orphans;
    match op
    case OpReceive(f, msg, c) => ReceiveStep(e, f, msg, c);
    case OpRequest(p, sent) => RequestStep(e, p, sent);
    case OpAnswer(p, accept, assigns, sent) => AnswerStep(e, p, accept, assigns, sent);
    case OpExpire(role) => ExpireHolds(e, role);
    case OpEncrypted => EncryptedStep(e, 0);
    case OpIwu(sent) => IwuStep(e, sent);
    case _ => OthersInv(e, op);
  }

  // ----- Runs -----

  // The state after a run, which leaves out what cannot happen and stops at a crash.
  function Run(mode: Mode, carrier: Carrier, ops: seq<Op>): (r: Progress)
    ensures r.Next? ==> Inv(r.e)
  {
    if ops == [] then
      EmptyInv(mode, carrier);
      Next(Initial(mode, carrier))
    else
      match Run(mode, carrier, ops[..|ops| - 1])
      case Crash => Crash
      case Next(e) =>
        if Enabled(e, ops[|ops| - 1]) then
          StepInv(e, ops[|ops| - 1]);
          Step(e, ops[|ops| - 1])
        else Next(e)
  }

  lemma EmptyInv(mode: Mode, carrier: Carrier)
    ensures Inv(Initial(mode, carrier)) && Held(Initial(mode, carrier))
  {}

  // No message of the run starts a procedure on a transaction of ours.
  predicate Orderly(mode: Mode, carrier: Carrier, ops: seq<Op>) {
    ops == [] || (Orderly(mode, carrier, ops[..|ops| - 1]) &&
                  match Run(mode, carrier, ops[..|ops| - 1])
                  case Next(e) => !Orphaning(e, ops[|ops| - 1])
                  case Crash => true)
  }

  lemma {:induction false} OrderlyRunsHold(mode: Mode, carrier: Carrier, ops: seq<Op>)
    requires Orderly(mode, carrier, ops) && Run(mode, carrier, ops).Next?
    ensures Held(Run(mode, carrier, ops).e)
  {
    hide Inv, Held, Step, Orphaning, Fatal;
    if ops == [] {
      EmptyInv(mode, carrier);
    } else {
      var before := Run(mode, carrier, ops[..|ops| - 1]);
      OrderlyRunsHold(mode, carrier, ops[..|ops| - 1]);
      if Enabled(before.e, ops[|ops| - 1]) {
        StepHeld(before.e, ops[|ops| - 1]);
      }
    }
  }

  lemma RunOn(mode: Mode, carrier: Carrier, ops: seq<Op>, e: Endpoint)
    requires ops != [] && Run(mode, carrier, ops[..|ops| - 1]) == Next(e) && Enabled(e, ops[|ops| - 1])
    ensures Run(mode, carrier, ops) == Step(e, ops[|ops| - 1])
  {
    hide Inv, Step, Enabled;
  }

  // A registration of ours, and a request to cipher that arrives on its transaction: the procedure in
  // progress has no transaction, and completing it crashes.
  lemma CipherOnOurTransaction()
    ensures var r := Run(PP, Carried, [OpRequest(LocationRegistration, true), OpReceive(true, CipherRequest, Fine)]);
            && r.Next? && r.e.current == Some(RESPONDER) && !r.e.Linked(RESPONDER)
            && Step(r.e, OpAnswer(Cipher, true, false, false)) == Crash
  {
    var a, b := OpRequest(LocationRegistration, true), OpReceive(true, CipherRequest, Fine);
    assert [a, b][..1] == [a] && [a][..0] == [];
    var e := Registered(None);
    Registering();
    UnheldAnswer(e);
    assert Run(PP, Carried, []) == Next(Initial(PP, Carried));
    assert Enabled(Initial(PP, Carried), a) && Enabled(e, b);
    hide Inv, Run, ReceiveMm, Request, Respond, Initiate, Answer, Lookup;
    RunOn(PP, Carried, [a], Initial(PP, Carried));
    RunOn(PP, Carried, [a, b], e);
  }

  lemma Registering()
    ensures Request(Initial(PP, Carried), LocationRegistration, true) == Next(Registered(None))
    ensures var f := Registered(None);
            && f.MayRespond(Cipher) && ReceiveMm(f, true, CipherRequest, Fine) == Next(Respond(f, Cipher))
            && Respond(f, Cipher).current == Some(RESPONDER) && !Respond(f, Cipher).Linked(RESPONDER)
  {
    RegistrationBegun();
    var t := Transaction(MM, INITIATOR, 0, 0, None, 0);
    assert Lookup([t], MM, 0, INITIATOR) == Some(0) && Lookup([t], MM, 0, RESPONDER) == None;
    hide Lookup, Request;
  }

  lemma RegistrationBegun()
    ensures Request(Initial(PP, Carried), LocationRegistration, true) == Next(Registered(None))
  {
    assert AllocTv([], MM) == Some(0);
    var t := Transaction(MM, INITIATOR, 0, 0, None, 0);
    hide AllocTv;
    assert Initiate(Initial(PP, Carried), LocationRegistration).ts == [t];
    assert Initiate(Initial(PP, Carried), LocationRegistration) == Registered(None);
    assert Lookup([t], MM, 0, INITIATOR) == Some(0);
    hide Lookup, Initiate;
  }

  // A portable part that registers.
  function Registered(kept: Option<Identity>): Endpoint {
    Endpoint(PP, Slot(LocationRegistration, 3, 0, true, kept), IDLE, Some(INITIATOR),
             [Transaction(MM, INITIATOR, 0, 0, None, 0)], false, 0, 1, Carried)
  }

  lemma UnheldAnswer(f: Endpoint)
    requires f.MayRespond(Cipher) && !Respond(f, Cipher).Linked(RESPONDER)
    ensures Step(Respond(f, Cipher), OpAnswer(Cipher, true, false, false)) == Crash
  {
    hide Lookup;
  }

  // A key allocation is never the portable part's to ask for: refused, it leaves its transaction behind, and
  // a rejection of ciphering on that transaction crashes.
  lemma RejectWithoutProcedure()
    ensures var r := Run(FP, Carried, [OpReceive(false, KeyAllocate, Fine)]);
            r.Next? && r.e.current.None? && r.e.Linked(RESPONDER) && Step(r.e, OpReceive(false, CipherReject, Fine)) == Crash
  {
    var a := OpReceive(false, KeyAllocate, Fine);
    assert [a][..0] == [];
    var e := Initial(FP, Carried);
    RefusedAllocation();
    hide Inv, Lookup, ReceiveMm, Confirmed;
    assert Run(FP, Carried, []) == Next(e);
    hide Run;
    RunOn(FP, Carried, [a], e);
  }

  lemma RefusedAllocation()
    ensures var f := Confirmed(Initial(FP, Carried));
            && ReceiveMm(Initial(FP, Carried), false, KeyAllocate, Fine) == Next(f)
            && f.Linked(RESPONDER) && f.current.None? && ReceiveMm(f, false, CipherReject, Fine) == Crash
  {
    var e, f, t := Initial(FP, Carried), Confirmed(Initial(FP, Carried)), Transaction(MM, RESPONDER, 0, 0, None, 0);
    assert Lookup([], MM, 0, RESPONDER) == None;
    assert f.ts == [t];
    assert Lookup([t], MM, 0, RESPONDER) == Some(0);
    hide Lookup, Insert;
    assert f.current.None? && f.ini == IDLE;
    RefusedIdle(e);
    hide Confirmed, ReceiveMm;
    RejectIdle(f);
  }

  lemma RefusedIdle(e: Endpoint)
    requires e.mode == FP && !e.Linked(RESPONDER)
    ensures ReceiveMm(e, false, KeyAllocate, Fine) == Next(Confirmed(e))
  {
    hide Lookup;
  }

  lemma RejectIdle(f: Endpoint)
    requires f.Linked(RESPONDER) && f.current.None?
    ensures ReceiveMm(f, false, CipherReject, Fine) == Crash
  {
    hide Lookup;
  }

  // Asked to register, the fixed part accepts with an assignment, and accepting that fails its assertion.
  lemma FixedPartAssigns()
    ensures var ops := [OpReceive(false, LocateRequest, Fine), OpAnswer(LocationRegistration, true, true, true)];
            && Run(FP, Carried, ops).Next?
            && Run(FP, Carried, ops + [OpAnswer(TemporaryIdentityAssignment, true, false, true)]) == Crash
  {
    var a, b, c := OpReceive(false, LocateRequest, Fine), OpAnswer(LocationRegistration, true, true, true),
                   OpAnswer(TemporaryIdentityAssignment, true, false, true);
    assert [a, b][..1] == [a] && [a, b] + [c] == [a, b, c] && [a, b, c][..2] == [a, b];
    hide Inv, Run, Step, Enabled;
    LocatingReached();
    LocateAssigned();
    RunOn(FP, Carried, [a, b], Locating(LocationRegistration));
    RunOn(FP, Carried, [a, b, c], Locating(TemporaryIdentityAssignment));
  }

  // A fixed part that runs a procedure for a registration.
  function Locating(p: Procedure): Endpoint {
    Endpoint(FP, IDLE, Slot(p, 3, 0, false, Some(IpuiIdentity)), Some(RESPONDER),
             [Transaction(MM, RESPONDER, 0, 0, None, 0)], true, 0, 1, Carried)
  }

  lemma LocateAsked()
    ensures var a := OpReceive(false, LocateRequest, Fine);
            Enabled(Initial(FP, Carried), a) && Step(Initial(FP, Carried), a) == Next(Locating(LocationRegistration))
  {
    var t := Transaction(MM, RESPONDER, 0, 0, None, 0);
    assert Lookup([], MM, 0, RESPONDER) == None;
    assert Insert([], t) == [t];
    hide Lookup, Insert;
  }

  lemma LocateAssigned()
    ensures var b, c := OpAnswer(LocationRegistration, true, true, true), OpAnswer(TemporaryIdentityAssignment, true, false, true);
            && Enabled(Locating(LocationRegistration), b) && Enabled(Locating(TemporaryIdentityAssignment), c)
            && Step(Locating(LocationRegistration), b) == Next(Locating(TemporaryIdentityAssignment))
            && Step(Locating(TemporaryIdentityAssignment), c) == Crash
  {
    assert Lookup([Transaction(MM, RESPONDER, 0, 0, None, 0)], MM, 0, RESPONDER) == Some(0);
    hide Lookup;
  }

  // An accept of access rights at the fixed part, on the transaction that a registration opened.
  lemma AcceptAtFixedPart(c: Contents)
    requires c != Malformed
    ensures Run(FP, Carried, [OpReceive(false, LocateRequest, Fine), OpReceive(false, AccessRightsAccept, c)]) == Crash
  {
    var a, b := OpReceive(false, LocateRequest, Fine), OpReceive(false, AccessRightsAccept, c);
    assert [a, b][..1] == [a];
    hide Inv, Run, Step, Enabled;
    LocatingReached();
    AcceptCrashes(c);
    RunOn(FP, Carried, [a, b], Locating(LocationRegistration));
  }

  lemma LocatingReached()
    ensures Run(FP, Carried, [OpReceive(false, LocateRequest, Fine)]) == Next(Locating(LocationRegistration))
  {
    var a := OpReceive(false, LocateRequest, Fine);
    assert [a][..0] == [];
    var e := Initial(FP, Carried);
    assert Run(FP, Carried, []) == Next(e);
    hide Inv, Run, Step, Enabled;
    LocateAsked();
    RunOn(FP, Carried, [a], e);
  }

  lemma AcceptCrashes(c: Contents)
    requires c != Malformed
    ensures var b := OpReceive(false, AccessRightsAccept, c); var e := Locating(LocationRegistration);
            Enabled(e, b) && Step(e, b) == Crash
  {
    assert Lookup([Transaction(MM, RESPONDER, 0, 0, None, 0)], MM, 0, RESPONDER) == Some(0);
    hide Lookup;
  }

  // A request whose identity element is empty, at a fixed part that takes the request.
  lemma EmptyIdentity(e: Endpoint, msg: MmMessage)
    requires Inv(e) && !e.Linked(RESPONDER) && Identifies(msg) && e.MayRespond(RequestFor(msg))
    ensures ReceiveMm(e, false, msg, Lacking) == Crash
  {
    ReceiveStep(e, false, msg, Lacking);
    hide Inv, Lookup, ReceiveMm;
  }

  // Which procedures the answers of the peer are about: mostly one that we have begun; an acknowledgement or refusal
  // of an assignment and, within a key allocation, the authentication, one that the peer has. Three are about any.
  predicate Expected(e: Endpoint, msg: MmMessage) {
    var ours, theirs := e.ini.proc, e.resp.proc;
    match msg
    case AuthReply => ours == Authenticate || theirs == KeyAllocation
    case AuthReject => ours == Authenticate || theirs == KeyAllocation
    case TerminateAccept => ours == AccessRightsTerminate
    case TerminateReject => ours == AccessRightsTerminate
    case LocateAccept(_, _) => ours == LocationRegistration
    case LocateReject => ours == LocationRegistration
    case InfoAccept => ours == ParameterRetrieval
    case InfoReject => ours == ParameterRetrieval
    case IdentityReply => ours == Identification
    case AssignAck => theirs == TemporaryIdentityAssignment
    case AssignReject => theirs == TemporaryIdentityAssignment
    case _ => msg.CipherReject? || msg.AccessRightsAccept? || msg.AccessRightsReject?
  }

  // On a transaction of either side a well formed message that asks for nothing changes something, or crashes,
  // exactly if it is expected.
  lemma AnswersTaken(e: Endpoint, f: bool, msg: MmMessage)
    requires Inv(e) && e.Linked(if f then INITIATOR else RESPONDER) && RequestFor(msg) == NoProcedure && !msg.InfoSuggest?
    ensures ReceiveMm(e, f, msg, Fine) == Next(e) <==> !Expected(e, msg)
  {
    hide Inv, Lookup, Complete;
    assert Complete(e).Next? ==> |Complete(e).e.ts| == |e.ts| - 1;
  }

  // An accepted registration goes on as an assignment of what was accepted, in its slot and with its rank, if that
  // is a temporary identity or the network assigns one; otherwise the procedure in progress is over.
  lemma RegistrationAccepted(e: Endpoint, id: Identity, network: bool)
    requires Inv(e) && e.ini.proc == LocationRegistration
    ensures ReceiveMm(e, true, LocateAccept(id, network), Fine) ==
            if id == TpuiIdentity || network then Next(e.(ini := e.ini.(proc := TemporaryIdentityAssignment, kept := Some(id))))
            else Complete(e)
  {
    hide Lookup, Complete;
  }

  // An answer that is looked at ends the procedure in progress: ours, unless it was interrupted.
  lemma AnswerEndsCurrent(e: Endpoint, msg: MmMessage)
    requires Inv(e) && Awaited(e, msg) && !(msg.LocateAccept? && (msg.id.TpuiIdentity? || msg.network)) && !AnswerFatal(e, msg, Fine)
    ensures var r := Answered(e, msg, Fine);
            && r.Next? && Inv(r.e)
            && (r.e.Active(INITIATOR) <==> e.Active(INITIATOR) && e.current == Some(RESPONDER))
            && (r.e.Active(RESPONDER) <==> e.Active(RESPONDER) && e.current == Some(INITIATOR))
  {
    NoDetach(e);
    hide Core, Complete, Lookup, Awaited;
    CompleteResumes(e);
  }

  // A request of the peer that is refused leaves its confirmed transaction behind without a procedure.
  lemma RefusedRequestLeaks(e: Endpoint, msg: MmMessage)
    requires Inv(e) && !e.Linked(RESPONDER) && !e.Active(RESPONDER)
    requires RequestFor(msg) !in {NoProcedure, Detach, ParameterRetrieval} && !(msg.AuthRequest? && e.ini.proc == KeyAllocation)
    ensures var r := ReceiveMm(e, false, msg, Fine);
            r.Next? && r.e.Linked(RESPONDER) && (r.e.Active(RESPONDER) <==> e.MayRespond(RequestFor(msg)))
  {
    hide Lookup, Confirmed, Inv, Priority, Respond;
    ConfirmedInv(e);
    PriorityRange(RequestFor(msg), Other(e.mode));
    if e.MayRespond(RequestFor(msg)) {
      RespondShape(Confirmed(e), RequestFor(msg));
    }
    RespondRefused(Confirmed(e), RequestFor(msg));
  }

  lemma RespondRefused(e: Endpoint, p: Procedure)
    ensures !e.MayRespond(p) ==> Respond(e, p) == e
  {}

  // ----- Retransmissions -----

  // How often the initiator's timer ran out.
  function Expiries(mode: Mode, carrier: Carrier, ops: seq<Op>): nat {
    if ops == [] then 0 else
      var before := ops[..|ops| - 1];
      Expiries(mode, carrier, before) +
      (if ops[|ops| - 1] == OpExpire(INITIATOR) && Run(mode, carrier, before).Next? && Run(mode, carrier, before).e.ini.timer then 1 else 0)
  }

  // Of all its expiries, over all procedures, only the 1st, 257th, 513th, ... lead to a retransmission.
  lemma {:induction false} RetransmitsEvery256(mode: Mode, carrier: Carrier, ops: seq<Op>)
    requires Run(mode, carrier, ops).Next?
    ensures var e := Run(mode, carrier, ops).e; var n := Expiries(mode, carrier, ops);
            e.ini.retransmissions == n % 256 && e.resent == (n + 255) / 256
  {
    hide Inv, Step;
    if ops != [] {
      var before := ops[..|ops| - 1];
      RetransmitsEvery256(mode, carrier, before);
      var e := Run(mode, carrier, before).e;
      var op := ops[|ops| - 1];
      if Enabled(e, op) {
        StepCounts(e, op);
      }
      NextCount(Expiries(mode, carrier, before));
      hide Enabled;
    }
  }

  lemma NextCount(n: nat)
    ensures (n + 1) % 256 == (n % 256 + 1) % 256
    ensures (n + 256) / 256 == (n + 255) / 256 + (if n % 256 == 0 then 1 else 0)
  {
    var q, r := n / 256, n % 256;
    if r == 0 {
      DividesAs(n + 255, q, 255);
    } else {
      DividesAs(n + 255, q + 1, r - 1);
    }
    DividesAs(n + 256, q + 1, r);
    DividesAs(n + 1, if r == 255 then q + 1 else q, if r == 255 then 0 else r + 1);
  }

  lemma DividesAs(z: int, q: int, r: int)
    requires z == 256 * q + r && 0 <= r < 256
    ensures z / 256 == q && z % 256 == r
  {}

  // The counters that only expiries change.
  predicate SameCounts(e: Endpoint, f: Endpoint) {
    f.ini.retransmissions == e.ini.retransmissions && f.resent == e.resent
  }

  lemma CompleteCounts(e: Endpoint)
    ensures Complete(e).Next? ==> SameCounts(e, Complete(e).e)
  {
    hide Lookup, Without;
  }

  lemma StepCounts(e: Endpoint, op: Op)
    requires Inv(e) && Enabled(e, op) && Step(e, op).Next?
    ensures var f := Step(e, op).e;
            if op == OpExpire(INITIATOR)
            then f.ini.retransmissions == (e.ini.retransmissions + 1) % 256
                 && f.resent == e.resent + (if e.ini.retransmissions == 0 then 1 else 0)
            else SameCounts(e, f)
  {
    hide Inv, ReceiveMm, Request, Answer, Expire, Complete, IwuRequest, Encrypted, EncryptFatal, Insert, Without, Lookup;
    match op
    case OpReceive(f, msg, c) => ReceiveCounts(e, f, msg, c);
    case OpRequest(p, sent) => RequestCounts(e, p, sent);
    case OpAnswer(p, accept, assigns, sent) => AnswerCounts(e, p, accept, assigns, sent);
    case OpExpire(role) =>
      ExpireEndsCurrent(e, role);
      ExpireCounts(e);
    case OpEncrypted => EncryptedStep(e, 0);
    case OpIwu(sent) => IwuCounts(e, sent);
    case _ =>
  }

  lemma RequestCounts(e: Endpoint, p: Procedure, sent: bool)
    ensures Request(e, p, sent).Next? ==> SameCounts(e, Request(e, p, sent).e)
  {
    hide Complete, Lookup, Initiate;
    CompleteCounts(e);
    InitiateCounts(e, p);
    CompleteCounts(Initiate(e, p));
  }

  lemma InitiateCounts(e: Endpoint, p: Procedure)
    ensures SameCounts(e, Initiate(e, p))
  {
    hide Lookup, AllocTv, Insert;
  }

  lemma AnswerCounts(e: Endpoint, p: Procedure, accept: bool, assigns: bool, sent: bool)
    ensures Answer(e, p, accept, assigns, sent).Next? ==> SameCounts(e, Answer(e, p, accept, assigns, sent).e)
  {
    hide Complete, Lookup;
    CompleteCounts(e);
  }

  lemma IwuCounts(e: Endpoint, sent: bool)
    ensures IwuRequest(e, sent).Next? ==> SameCounts(e, IwuRequest(e, sent).e)
  {
    hide Lookup, AllocTv;
  }

  lemma ExpireCounts(e: Endpoint)
    ensures Expire(e, INITIATOR).Next? ==>
              var f := Expire(e, INITIATOR).e;
              && f.ini.retransmissions == (e.ini.retransmissions + 1) % 256
              && f.resent == e.resent + (if e.ini.retransmissions == 0 then 1 else 0)
  {
    hide Complete, Lookup;
    var s := e.ini.(retransmissions := (e.ini.retransmissions + 1) % 256, timer := false);
    CompleteCounts(e.With(INITIATOR, s));
  }

  lemma ReceiveCounts(e: Endpoint, f: bool, msg: MmMessage, contents: Contents)
    requires ReceiveMm(e, f, msg, contents).Next?
    ensures SameCounts(e, ReceiveMm(e, f, msg, contents).e)
  {
    var c := Confirmed(e);
    assert SameCounts(e, c);
    hide Complete, Lookup, Insert, Confirmed, Handle;
    HandleCounts(e, msg, contents);
    HandleCounts(c, msg, contents);
  }

  lemma HandleCounts(e: Endpoint, msg: MmMessage, contents: Contents)
    ensures Handle(e, msg, contents).Next? ==> SameCounts(e, Handle(e, msg, contents).e)
  {
    hide Complete, Requested;
    CompleteCounts(e);
    RequestedCounts(e, msg, contents);
  }

  lemma RequestedCounts(e: Endpoint, msg: MmMessage, contents: Contents)
    ensures Requested(e, msg, contents).Next? ==> SameCounts(e, Requested(e, msg, contents).e)
  {
    hide Complete, Respond, Lookup;
    if e.MayRespond(RequestFor(msg)) {
      var f := Respond(e, RequestFor(msg));
      RespondShape(e, RequestFor(msg));
      CompleteCounts(f);
      if Complete(f).Next? {
        CompleteCounts(Complete(f).e);
      }
    }
  }
}
