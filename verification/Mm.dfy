// The Mobility Management procedure arbiter of ETSI EN 300 175-5, clause 13: one procedure slot for
// each role, strict priority between them, and the transactions the slots hold on their link.
module Mm {
  import opened Common
  import opened Lce

  datatype Procedure =
    | NoProcedure | AccessRights | AccessRightsTerminate | Authenticate | AuthenticateUser | KeyAllocation
    | LocationRegistration | TemporaryIdentityAssignment | Identification | Cipher | ParameterRetrieval | Detach

  // The priority of a procedure that the given side initiates; 0 if that side never does.
  function Priority(p: Procedure, side: Mode): nat {
    match p
    case NoProcedure => 0
    case AccessRights => if side == PP then 3 else 0
    case AccessRightsTerminate => if side == PP then 3 else 2
    case Authenticate => if side == PP then 1 else 2
    case AuthenticateUser => if side == PP then 0 else 2
    case KeyAllocation => if side == PP then 0 else 2
    case LocationRegistration => if side == PP then 3 else 0
    case TemporaryIdentityAssignment => if side == PP then 0 else 2
    case Identification => if side == PP then 0 else 2
    case Cipher => if side == PP then 3 else 2
    case ParameterRetrieval => if side == PP then 3 else 2
    case Detach => if side == PP then 3 else 0
  }

  // Whether the procedure is timed when the given side initiates it.
  predicate HasTimeout(p: Procedure, side: Mode) {
    Priority(p, side) > 0 && p != Detach
  }

  // The portable identity in a message's parameters.
  datatype Identity = NoIdentity | IpuiIdentity | TpuiIdentity | OtherIdentity

  // kept are the parameters that the slot holds for its procedure (iec), of which the identity matters.
  datatype Slot = Slot(proc: Procedure, priority: nat, retransmissions: nat, timer: bool, kept: Option<Identity>)

  const IDLE: Slot := Slot(NoProcedure, 0, 0, false, None)

  // What the link can do: it has no socket yet, it takes messages, or it is being or has been released.
  datatype Carrier = Paged | Carried | Cut

  // ts are the transactions of the endpoint's link; known says that the responder's transaction has been
  // linked before; resent counts retransmission requests.
  datatype Endpoint = Endpoint(
    mode: Mode, ini: Slot, resp: Slot, current: Option<Role>, ts: seq<Transaction>, known: bool, resent: nat, next: nat,
    carrier: Carrier)
  {
    function At(role: Role): Slot {
      if role == INITIATOR then ini else resp
    }

    function With(role: Role, s: Slot): Endpoint {
      if role == INITIATOR then this.(ini := s) else this.(resp := s)
    }

    predicate Active(role: Role) {
      At(role).proc != NoProcedure
    }

    predicate Linked(role: Role) {
      Lookup(ts, MM, 0, role).Some?
    }

    // A procedure of this priority has to wait, or rather fails.
    predicate Blocked(priority: nat) {
      priority == 0 || (current.Some? && At(current.value).priority <= priority)
    }

    predicate MayInitiate(p: Procedure) {
      !Blocked(Priority(p, mode)) && (Active(INITIATOR) || AllocTv(ts, MM).Some?)
    }

    predicate MayRespond(p: Procedure) {
      !Blocked(Priority(p, Other(mode))) && !Active(RESPONDER)
    }

    // There is no procedure to complete, or none whose transaction is linked.
    predicate Stuck() {
      current.None? || !Linked(current.value)
    }

    // A message that was built goes out on the current transaction, whose link must have been set and take it.
    predicate CanSend() {
      current.Some? && (Linked(current.value) || (current == Some(RESPONDER) && known)) && carrier != Cut
    }
  }

  // Crash: an assertion or BUG(), or a pointer is followed that is NULL or belongs to a transaction off the
  // list, or a transaction is linked twice.
  datatype Progress = Next(e: Endpoint) | Crash

  function Initial(mode: Mode, carrier: Carrier): Endpoint {
    Endpoint(mode, IDLE, IDLE, None, [], false, 0, 0, carrier)
  }

  function Linking(e: Endpoint, role: Role, tv: nat): Endpoint {
    e.(ts := Insert(e.ts, Transaction(MM, role, tv, 0, None, e.next)), next := e.next + 1)
  }

  // dect_mm_procedure_initiate: a running initiator procedure that is outranked is replaced and
  // keeps its transaction; otherwise one is opened.
  function Initiate(e: Endpoint, p: Procedure): Endpoint {
    if !e.MayInitiate(p) then e
    else
      var f := if e.Active(INITIATOR) then e else Linking(e, INITIATOR, AllocTv(e.ts, MM).value);
      f.(ini := Slot(p, Priority(p, e.mode), e.ini.retransmissions, HasTimeout(p, e.mode), None), current := Some(INITIATOR))
  }

  // dect_mm_procedure_respond, which never interrupts a responder procedure.
  function Respond(e: Endpoint, p: Procedure): Endpoint {
    if !e.MayRespond(p) then e
    else e.(resp := Slot(p, Priority(p, Other(e.mode)), e.resp.retransmissions, e.resp.timer, None), current := Some(RESPONDER))
  }

  function Unlinked(e: Endpoint, role: Role): Endpoint
    requires e.Linked(role)
  {
    e.(ts := Without(e.ts, Lookup(e.ts, MM, 0, role).value))
  }

  // dect_mm_procedure_complete: end the current procedure, resume the other one.
  function Complete(e: Endpoint): (r: Progress)
    ensures r.Crash? <==> e.Stuck()
    ensures r.Next? ==> |r.e.ts| == |e.ts| - 1
  {
    if e.Stuck() then Crash else
      var role := e.current.value;
      var s := e.At(role).(proc := NoProcedure, timer := false);
      var f := Unlinked(e, role).With(role, s);
      Next(f.(current := if f.Active(Opposite(role)) then Some(Opposite(role)) else None))
  }

  // The timer of a slot runs out: retransmit the first time (the counter has eight bits and is never
  // reset), afterwards end the current procedure, whichever slot that is.
  function Expire(e: Endpoint, role: Role): Progress {
    var s := e.At(role).(retransmissions := (e.At(role).retransmissions + 1) % 256, timer := false);
    if e.At(role).retransmissions == 0 then Next(e.With(role, s.(timer := true)).(resent := e.resent + 1))
    else Complete(e.With(role, s))
  }

  // ----- Messages of the peer -----

  datatype MmMessage =
    | AuthRequest | AuthReply | AuthReject | CipherRequest | CipherSuggest | CipherReject
    | AccessRightsRequest | AccessRightsAccept | AccessRightsReject
    | TerminateRequest | TerminateAccept | TerminateReject
    | LocateRequest | LocateAccept(id: Identity, network: bool) | LocateReject | KeyAllocate
    | InfoRequest | InfoSuggest | InfoAccept | InfoReject | IdentityRequest | IdentityReply
    | AssignRequest | AssignAck | AssignReject | DetachNotice | OtherMessage

  // What the parser makes of a message: it refuses it; it takes it, but leaves the portable identity NULL,
  // which an empty element is enough for; the identity is of the wrong kind or not the link's; or all is well.
  datatype Contents = Malformed | Lacking | Mistaken | Fine

  // The procedure that a request asks for.
  function RequestFor(msg: MmMessage): Procedure {
    match msg
    case AuthRequest => Authenticate
    case CipherRequest => Cipher
    case CipherSuggest => Cipher
    case AccessRightsRequest => AccessRights
    case TerminateRequest => AccessRightsTerminate
    case LocateRequest => LocationRegistration
    case KeyAllocate => KeyAllocation
    case InfoRequest => ParameterRetrieval
    case IdentityRequest => Identification
    case AssignRequest => TemporaryIdentityAssignment
    case DetachNotice => Detach
    case _ => NoProcedure
  }

  // Messages that dect_mm_open takes on a transaction of their own.
  predicate Opens(msg: MmMessage) {
    RequestFor(msg) != NoProcedure || msg.InfoSuggest?
  }

  // Messages that dect_mm_rcv takes on an existing transaction, of either role.
  predicate Dispatched(msg: MmMessage) {
    msg.AuthRequest? || msg.CipherRequest? || msg.CipherSuggest? || (!Opens(msg) && !msg.OtherMessage?)
  }

  // Requests whose identity is followed without a look.
  predicate Identifies(msg: MmMessage) {
    msg.AccessRightsRequest? || msg.TerminateRequest? || msg.LocateRequest? || msg.DetachNotice?
  }

  // Requests whose identity must be right if it is there.
  predicate Checked(msg: MmMessage) {
    Identifies(msg) || msg.InfoRequest? || msg.AssignRequest?
  }

  // Requests that are rejected by a message if they are malformed.
  predicate Rejected(msg: MmMessage) {
    !(msg.CipherSuggest? || msg.KeyAllocate? || msg.IdentityRequest? || msg.DetachNotice?)
  }

  // A message that answers is looked at if a slot runs what it answers; three are always.
  predicate Awaited(e: Endpoint, msg: MmMessage) {
    match msg
    case AuthReply => e.resp.proc == KeyAllocation || e.ini.proc == Authenticate
    case AuthReject => e.resp.proc == KeyAllocation || e.ini.proc == Authenticate
    case CipherReject => true
    case AccessRightsAccept => true
    case AccessRightsReject => true
    case TerminateAccept => e.ini.proc == AccessRightsTerminate
    case TerminateReject => e.ini.proc == AccessRightsTerminate
    case LocateAccept(_, _) => e.ini.proc == LocationRegistration
    case LocateReject => e.ini.proc == LocationRegistration
    case InfoAccept => e.ini.proc == ParameterRetrieval
    case InfoReject => e.ini.proc == ParameterRetrieval
    case IdentityReply => e.ini.proc == Identification
    case AssignAck => e.resp.proc == TemporaryIdentityAssignment
    case AssignReject => e.resp.proc == TemporaryIdentityAssignment
    case _ => false
  }

  // The accept of a registration begins an assignment.
  predicate Assigning(msg: MmMessage) {
    msg.LocateAccept? && (msg.id == TpuiIdentity || msg.network)
  }

  // Whether the slot holds an identity that can be followed.
  predicate Identified(s: Slot) {
    s.kept.Some? && s.kept != Some(NoIdentity)
  }

  // An accept of access rights is taken apart even by the fixed part, in whose direction it holds no identity.
  function Answered(e: Endpoint, msg: MmMessage, c: Contents): Progress {
    if c == Malformed || !Awaited(e, msg) then Next(e)
    else if msg.AccessRightsAccept? && (e.mode == FP || c == Lacking) then Crash
    else if msg.AccessRightsAccept? && c == Mistaken then Next(e)
    else if msg.AssignAck? && !Identified(e.resp) then Crash
    else if Assigning(msg) then Next(e.(ini := e.ini.(proc := TemporaryIdentityAssignment, kept := Some(msg.id))))
    else Complete(e)
  }

  function Requested(e: Endpoint, msg: MmMessage, c: Contents): Progress {
    if msg.AuthRequest? && e.ini.proc == KeyAllocation then
      if c == Malformed && !e.CanSend() then Crash else Next(e)
    else if !e.MayRespond(RequestFor(msg)) then Next(e)
    else Begun(Respond(e, RequestFor(msg)), msg, c)
  }

  // The rest of a request's handler, once its procedure has begun.
  function Begun(f: Endpoint, msg: MmMessage, c: Contents): Progress {
    match c
    case Malformed => if Rejected(msg) && !f.CanSend() then Crash else if msg.AuthRequest? then Next(f) else Complete(f)
    case Lacking => if Identifies(msg) then Crash else Indicated(f, msg)
    case Mistaken => if Checked(msg) then Complete(f) else Indicated(f, msg)
    case Fine => Indicated(f, msg)
  }

  // The user is told.
  function Indicated(f: Endpoint, msg: MmMessage): Progress {
    match msg
    case AccessRightsRequest => Next(f.(resp := f.resp.(kept := Some(IpuiIdentity))))
    case LocateRequest => Next(f.(resp := f.resp.(kept := Some(IpuiIdentity))))
    case InfoRequest => if f.mode == FP then Next(f) else Complete(f)
    case DetachNotice => CompleteTwice(f)
    case _ => Next(f)
  }

  // The handler of a detach falls through to its error path.
  function CompleteTwice(e: Endpoint): Progress {
    match Complete(e)
    case Crash => Crash
    case Next(f) => Complete(f)
  }

  function Suggested(e: Endpoint, c: Contents): Progress {
    if e.Active(RESPONDER) || c == Malformed || e.current.None? then Next(e) else Complete(e)
  }

  function Handle(e: Endpoint, msg: MmMessage, c: Contents): Progress {
    if RequestFor(msg) != NoProcedure then Requested(e, msg, c)
    else if msg.InfoSuggest? then Suggested(e, c)
    else Answered(e, msg, c)
  }

  function Confirmed(e: Endpoint): Endpoint {
    Linking(e, RESPONDER, 0).(known := true)
  }

  // A message with the given F flag: on an existing transaction of ours (F set) or of the peer, or on a
  // new one, which is confirmed as the peer's whatever F says.
  function ReceiveMm(e: Endpoint, f: bool, msg: MmMessage, c: Contents): Progress {
    if e.Linked(if f then INITIATOR else RESPONDER) then
      if Dispatched(msg) then Handle(e, msg, c) else Next(e)
    else if !Opens(msg) then Next(e)
    else if e.Linked(RESPONDER) then Crash
    else Handle(Confirmed(e), msg, c)
  }

  // ----- Primitives of the user -----

  // MM_...-req: initiate and send; sent says that the message could be built. Authentication inside a key
  // allocation of the peer belongs to it; a detach, and a suggestion of the fixed part, are over when they
  // are sent. Ciphering first sets the key on the link's socket.
  function Request(e: Endpoint, p: Procedure, sent: bool): Progress {
    if p == Authenticate && e.resp.proc == KeyAllocation then
      if e.current.None? || (sent && !e.CanSend()) then Crash else if sent then Next(e) else Complete(e)
    else if (p == ParameterRetrieval && e.Active(INITIATOR)) || !e.MayInitiate(p) then Next(e)
    else
      Sending(Initiate(e, p), p, sent)
  }

  // A procedure of ours has begun.
  function Sending(f: Endpoint, p: Procedure, sent: bool): Progress {
    if (p == Cipher && f.carrier == Paged) || (sent && !f.CanSend()) then Crash
    else if !sent || p == Detach || (p == ParameterRetrieval && f.mode == FP) then Complete(f) else Next(f)
  }

  // MM_...-res for the procedure in progress. What the request brought is looked up when it is accepted: its
  // identity, which for an assignment has to be a TPUI. An accepted registration may go on as an assignment.
  // An accepted ciphering is not answered but carried out.
  function Answer(e: Endpoint, p: Procedure, accept: bool, assigns: bool, sent: bool): Progress {
    if e.current.None? then (if p == ParameterRetrieval then Next(e) else Crash)
    else
      var s := e.At(e.current.value);
      if s.proc != p && !(p == Authenticate && s.proc == KeyAllocation) then Next(e)
      else if accept && p in {AccessRights, LocationRegistration} && !Identified(s) then Crash
      else if accept && p == TemporaryIdentityAssignment && s.kept != Some(TpuiIdentity) then Crash
      else if accept && p == Cipher then (if e.carrier == Paged then Crash else Complete(e))
      else if sent && !e.CanSend() then Crash
      else if p == LocationRegistration && accept && assigns && sent then
        Next(e.With(e.current.value, s.(proc := TemporaryIdentityAssignment)))
      else Complete(e)
  }

  // MM_IWU-req opens a transaction of its own, but sends on the current one; then it closes its own again.
  function IwuRequest(e: Endpoint, sent: bool): Progress {
    if e.Active(INITIATOR) || AllocTv(e.ts, MM).None? then Next(e)
    else if e.current.None? || (sent && !e.CanSend()) then Crash
    else Next(e.(next := e.next + 1))
  }

  // ----- The link -----

  // Ciphering was switched on or off, which the transactions are told one after the other. Each one's successor
  // is noted before it is told: if that is closed meanwhile, the loop goes on with an entry off the list.
  function Encrypted(e: Endpoint, j: nat): Progress
    requires j <= |e.ts|
    decreases |e.ts| - j
  {
    if j == |e.ts| then Next(e)
    else if e.ts[j].pd != MM || e.At(e.ts[j].role).proc != Cipher then Encrypted(e, j + 1)
    else if e.Stuck() then Crash
    else
      var i := Lookup(e.ts, MM, 0, e.current.value).value;
      if i == j + 1 then Crash else Encrypted(Complete(e).e, if i <= j then j else j + 1)
  }

  // The paged peer answered on a link with transactions of other protocols: what the endpoint has moves there.
  function Moving(e: Endpoint, front: seq<Transaction>): Endpoint {
    e.(ts := front + e.ts, carrier := Carried)
  }

  // Transactions of other protocols come and go on the link.
  function OthersLink(e: Endpoint, t: Transaction): Endpoint
    requires t.pd != MM
  {
    e.(ts := Insert(e.ts, t))
  }

  function OthersClose(e: Endpoint, i: nat): Endpoint
    requires i < |e.ts| && e.ts[i].pd != MM
  {
    e.(ts := Without(e.ts, i))
  }
}
