// The procedure arbiter as the source keeps it: two procedure objects, one of which current points to.
module MmMachine {
  import opened Common
  import opened Lce
  import opened Mm
  import opened MmRuns

  class MmProcedure {
    const role: Role
    var proc: Procedure
    var priority: nat
    var retransmissions: nat
    var timer: bool
    var kept: Option<Identity>

    constructor (role: Role)
      ensures this.role == role && Value() == IDLE
    {
      this.role, proc, priority, retransmissions, timer, kept := role, NoProcedure, 0, 0, false, None;
    }

    function Value(): Slot
      reads this
    {
      Slot(proc, priority, retransmissions, timer, kept)
    }
  }

  class MmEndpoint {
    const mode: Mode
    const ini: MmProcedure
    const resp: MmProcedure
    var current: MmProcedure?
    // the transactions of the link, and what was retransmitted on it
    var ts: seq<Transaction>
    var known: bool
    var resent: nat
    var next: nat
    var carrier: Carrier

    ghost predicate Valid()
      reads this
    {
      ini.role == INITIATOR && resp.role == RESPONDER && (current == null || current == ini || current == resp)
    }

    function View(): Endpoint
      reads this, ini, resp
      requires Valid()
    {
      Endpoint(mode, ini.Value(), resp.Value(), if current == null then None else Some(current.role),
               ts, known, resent, next, carrier)
    }

    constructor (mode: Mode, carrier: Carrier)
      ensures Valid() && fresh(ini) && fresh(resp) && View() == Initial(mode, carrier)
    {
      this.carrier := carrier;
      this.mode := mode;
      ini := new MmProcedure(INITIATOR);
      resp := new MmProcedure(RESPONDER);
      current, ts, known, resent, next := null, [], false, 0, 0;
    }

    method TransactionOpen() returns (ok: bool)
      requires Valid()
      modifies this`ts, this`next
      ensures ok == AllocTv(old(ts), MM).Some?
      ensures View() == if ok then Linking(old(View()), INITIATOR, AllocTv(old(ts), MM).value) else old(View())
    {
      var tv := AllocTv(ts, MM);
      ok := tv.Some?;
      if ok {
        ts := Insert(ts, Transaction(MM, INITIATOR, tv.value, 0, None, next));
        next := next + 1;
      }
    }

    // The side may run the procedure, and it outranks the one in progress.
    method Admits(prio: nat) returns (ok: bool)
      requires Valid()
      ensures ok == !View().Blocked(prio)
    {
      if prio == 0 {
        return false;
      }
      if current != null && current.priority <= prio {
        return false;
      }
      return true;
    }

    method ProcedureInitiate(p: Procedure) returns (ok: bool)
      requires Valid() && Inv(View())
      modifies this, ini
      ensures Valid() && View() == Initiate(old(View()), p)
      ensures ok <==> old(View()).MayInitiate(p)
    {
      hide Inv, Insert, AllocTv, Priority, HasTimeout, Lookup;
      var prio := Priority(p, mode);
      var admitted := Admits(prio);
      if !admitted {
        return false;
      }
      var prepared := CancelOrOpen();
      if !prepared {
        return false;
      }
      Occupy(p, prio);
      return true;
    }

    // A running procedure of ours is cancelled and leaves its transaction; otherwise one is opened.
    method CancelOrOpen() returns (ok: bool)
      requires Valid() && Inv(View())
      modifies this`ts, this`next, ini
      ensures Valid() && !ini.timer
      ensures var e := old(View());
              && ok == (e.Active(INITIATOR) || AllocTv(e.ts, MM).Some?)
              && View() == if e.Active(INITIATOR) then e.(ini := e.ini.(timer := false))
                           else if ok then Linking(e, INITIATOR, AllocTv(e.ts, MM).value) else e
    {
      hide Linking, AllocTv;
      IdleUntimed(View());
      hide Inv;
      if ini.proc != NoProcedure {
        ini.timer := false;
        return true;
      }
      ok := TransactionOpen();
    }

    // The initiator's slot takes a procedure, which becomes the current one.
    method Occupy(p: Procedure, prio: nat)
      requires Valid() && !ini.timer
      modifies this`current, ini
      ensures Valid()
      ensures View() == old(View()).(ini := Slot(p, prio, old(ini.retransmissions), HasTimeout(p, mode), None),
                                     current := Some(INITIATOR))
    {
      hide HasTimeout;
      ini.proc := p;
      ini.priority := prio;
      ini.kept := None;
      if HasTimeout(p, mode) {
        ini.timer := true;
      }
      current := ini;
    }

    method ProcedureRespond(p: Procedure) returns (ok: bool)
      requires Valid()
      modifies this`current, resp
      ensures Valid() && View() == Respond(old(View()), p)
      ensures ok <==> old(View()).MayRespond(p)
    {
      hide Priority;
      var prio := Priority(p, Other(mode));
      var admitted := Admits(prio);
      if !admitted {
        return false;
      }
      if resp.proc != NoProcedure {
        return false;
      }
      resp.proc := p;
      resp.priority := prio;
      resp.kept := None;
      current := resp;
      return true;
    }

    // Following a NULL pointer, or one into a transaction that is not linked, is reported as a crash.
    method ProcedureComplete() returns (crashed: bool)
      requires Valid()
      modifies this, ini, resp
      ensures Valid() && crashed == Complete(old(View())).Crash?
      ensures !crashed ==> Complete(old(View())) == Next(View())
    {
      hide Lookup;
      var mp := current;
      if mp == null {
        return true;
      }
      var at := Lookup(ts, MM, 0, mp.role);
      if at.None? {
        return true;
      }
      if mp.timer {
        mp.timer := false;
      }
      ts := ts[..at.value] + ts[at.value + 1..];
      mp.proc := NoProcedure;
      var other := if mp.role == INITIATOR then resp else ini;
      if other.proc != NoProcedure {
        current := other;
      } else {
        current := null;
      }
      return false;
    }

    // The timer of mp has run out.
    method ProcedureTimeout(mp: MmProcedure) returns (crashed: bool)
      requires Valid() && (mp == ini || mp == resp) && mp.timer
      modifies this, ini, resp
      ensures Valid() && crashed == Expire(old(View()), mp.role).Crash?
      ensures !crashed ==> Expire(old(View()), mp.role) == Next(View())
    {
      hide Complete;
      ghost var e := View();
      mp.timer := false;
      var n := mp.retransmissions;
      mp.retransmissions := (n + 1) % 256;
      if n == 0 {
        resent := resent + 1;
        mp.timer := true;
        return false;
      }
      assert View() == e.With(mp.role, mp.Value());
      crashed := ProcedureComplete();
    }

    method SendPossible() returns (ok: bool)
      requires Valid()
      ensures ok == View().CanSend()
    {
      if current == null {
        return false;
      }
      return (Lookup(ts, MM, 0, current.role).Some? || (current.role == RESPONDER && known)) && carrier != Cut;
    }

    // The receive handlers of the requests: respond, then keep the parameters or end at once.
    method ReceiveRequest(msg: MmMessage, c: Contents) returns (crashed: bool)
      requires Valid() && RequestFor(msg) != NoProcedure
      modifies this, ini, resp
      ensures Valid() && crashed == Requested(old(View()), msg, c).Crash?
      ensures !crashed ==> Requested(old(View()), msg, c) == Next(View())
    {
      hide Complete, Respond, Lookup, Priority;
      if msg.AuthRequest? && ini.proc == KeyAllocation {
        var can := SendPossible();
        return c == Malformed && !can;
      }
      ghost var e := View();
      var ok := ProcedureRespond(RequestFor(msg));
      if !ok {
        RespondRefused(e, RequestFor(msg));
        return false;
      }
      RespondShape(e, RequestFor(msg));
      hide Begun;
      crashed := Proceed(msg, c);
    }

    // A procedure of the peer has begun: parse the rest, look at the identity, and tell the user.
    method Proceed(msg: MmMessage, c: Contents) returns (crashed: bool)
      requires Valid() && RequestFor(msg) != NoProcedure
      modifies this, ini, resp
      ensures Valid() && crashed == Begun(old(View()), msg, c).Crash?
      ensures !crashed ==> Begun(old(View()), msg, c) == Next(View())
    {
      hide Complete, Lookup, Indicated;
      if c == Malformed {
        if Rejected(msg) {
          var can := SendPossible();
          if !can {
            return true;
          }
          if msg.AuthRequest? {
            return false;
          }
        }
        crashed := ProcedureComplete();
        return;
      }
      if Checked(msg) {
        if c == Lacking && Identifies(msg) {
          return true;
        }
        if c == Mistaken {
          crashed := ProcedureComplete();
          return;
        }
      }
      crashed := Indicate(msg);
    }

    method Indicate(msg: MmMessage) returns (crashed: bool)
      requires Valid() && RequestFor(msg) != NoProcedure
      modifies this, ini, resp
      ensures Valid() && crashed == Indicated(old(View()), msg).Crash?
      ensures !crashed ==> Indicated(old(View()), msg) == Next(View())
    {
      hide Complete, Lookup;
      match msg
      case AccessRightsRequest =>
        resp.kept := Some(IpuiIdentity);
        return false;
      case LocateRequest =>
        resp.kept := Some(IpuiIdentity);
        return false;
      case InfoRequest =>
        if mode == PP {
          crashed := ProcedureComplete();
          return;
        }
        return false;
      case DetachNotice =>
        crashed := ProcedureComplete();
        if !crashed {
          crashed := ProcedureComplete();
        }
      case _ =>
        return false;
    }

    // The receive handlers of the answers.
    method ReceiveAnswer(msg: MmMessage, c: Contents) returns (crashed: bool)
      requires Valid()
      modifies this, ini, resp
      ensures Valid() && crashed == Answered(old(View()), msg, c).Crash?
      ensures !crashed ==> Answered(old(View()), msg, c) == Next(View())
    {
      hide Complete, Lookup, Awaited;
      if c == Malformed || !Awaited(View(), msg) {
        return false;
      }
      if msg.AccessRightsAccept? {
        if mode == FP || c == Lacking {
          return true;
        }
        if c == Mistaken {
          return false;
        }
      }
      if msg.AssignAck? && (resp.kept.None? || resp.kept.value == NoIdentity) {
        return true;
      }
      if msg.LocateAccept? && (msg.id == TpuiIdentity || msg.network) {
        ini.kept := Some(msg.id);
        ini.proc := TemporaryIdentityAssignment;
        return false;
      }
      crashed := ProcedureComplete();
    }

    method DispatchMessage(msg: MmMessage, c: Contents) returns (crashed: bool)
      requires Valid()
      modifies this, ini, resp
      ensures Valid() && crashed == Handle(old(View()), msg, c).Crash?
      ensures !crashed ==> Handle(old(View()), msg, c) == Next(View())
    {
      hide Complete, Requested, Answered;
      if RequestFor(msg) != NoProcedure {
        crashed := ReceiveRequest(msg, c);
      } else if msg.InfoSuggest? {
        if resp.proc != NoProcedure || c == Malformed || current == null {
          return false;
        }
        crashed := ProcedureComplete();
      } else {
        crashed := ReceiveAnswer(msg, c);
      }
    }

    // dect_mm_rcv and dect_mm_open, by the role and the presence of the transaction.
    method ReceiveMessage(f: bool, msg: MmMessage, c: Contents) returns (crashed: bool)
      requires Valid()
      modifies this, ini, resp
      ensures Valid() && crashed == ReceiveMm(old(View()), f, msg, c).Crash?
      ensures !crashed ==> ReceiveMm(old(View()), f, msg, c) == Next(View())
    {
      hide Handle, Insert, Lookup;
      if Lookup(ts, MM, 0, if f then INITIATOR else RESPONDER).Some? {
        if !Dispatched(msg) {
          return false;
        }
        crashed := DispatchMessage(msg, c);
        return;
      }
      if !Opens(msg) {
        return false;
      }
      if Lookup(ts, MM, 0, RESPONDER).Some? {
        return true;
      }
      ts := Insert(ts, Transaction(MM, RESPONDER, 0, 0, None, next));
      next := next + 1;
      known := true;
      assert View() == Confirmed(old(View()));
      crashed := DispatchMessage(msg, c);
    }

    // The request primitives of the user.
    method RequestProcedure(p: Procedure, sent: bool) returns (crashed: bool)
      requires Valid() && Inv(View())
      modifies this, ini, resp
      ensures Valid() && crashed == Request(old(View()), p, sent).Crash?
      ensures !crashed ==> Request(old(View()), p, sent) == Next(View())
    {
      hide Inv, Complete, Initiate, Lookup;
      if p == Authenticate && resp.proc == KeyAllocation {
        var can := SendPossible();
        if current == null || (sent && !can) {
          return true;
        }
        if sent {
          return false;
        }
        crashed := ProcedureComplete();
        return;
      }
      if p == ParameterRetrieval && ini.proc != NoProcedure {
        return false;
      }
      var ok := ProcedureInitiate(p);
      if !ok {
        InitiateRefused(old(View()), p);
        return false;
      }
      crashed := SendRequest(p, sent);
    }

    // The procedure of ours has begun: set the key of a ciphering, then send.
    method SendRequest(p: Procedure, sent: bool) returns (crashed: bool)
      requires Valid()
      modifies this, ini, resp
      ensures Valid() && crashed == Sending(old(View()), p, sent).Crash?
      ensures !crashed ==> Sending(old(View()), p, sent) == Next(View())
    {
      hide Complete, Lookup;
      if p == Cipher && carrier == Paged {
        return true;
      }
      var can := SendPossible();
      if sent && !can {
        return true;
      }
      if !sent || p == Detach || (p == ParameterRetrieval && mode == FP) {
        crashed := ProcedureComplete();
        return;
      }
      return false;
    }

    // The response primitives of the user.
    method AnswerProcedure(p: Procedure, accept: bool, assigns: bool, sent: bool) returns (crashed: bool)
      requires Valid()
      modifies this, ini, resp
      ensures Valid() && crashed == Answer(old(View()), p, accept, assigns, sent).Crash?
      ensures !crashed ==> Answer(old(View()), p, accept, assigns, sent) == Next(View())
    {
      hide Complete, Lookup;
      var mp := current;
      if mp == null {
        return p != ParameterRetrieval;
      }
      if mp.proc != p && !(p == Authenticate && mp.proc == KeyAllocation) {
        return false;
      }
      if accept && (p == AccessRights || p == LocationRegistration) && (mp.kept.None? || mp.kept.value == NoIdentity) {
        return true;
      }
      if accept && p == TemporaryIdentityAssignment && mp.kept != Some(TpuiIdentity) {
        return true;
      }
      if accept && p == Cipher {
        if carrier == Paged {
          return true;
        }
      } else {
        var can := SendPossible();
        if sent && !can {
          return true;
        }
        if p == LocationRegistration && accept && assigns && sent {
          mp.proc := TemporaryIdentityAssignment;
          return false;
        }
      }
      crashed := ProcedureComplete();
    }

    // The loop of an encryption indication: j is the entry it is at, the one behind is already noted.
    method EncryptionIndicated() returns (crashed: bool)
      requires Valid()
      modifies this, ini, resp
      ensures Valid() && crashed == Encrypted(old(View()), 0).Crash?
      ensures !crashed ==> Encrypted(old(View()), 0) == Next(View())
    {
      hide Lookup;
      var j := 0;
      while j < |ts|
        invariant Valid() && j <= |ts| && Encrypted(View(), j) == Encrypted(old(View()), 0)
        decreases |ts| - j
      {
        var mp := if ts[j].role == INITIATOR then ini else resp;
        if ts[j].pd == MM && mp.proc == Cipher {
          if current == null {
            return true;
          }
          var at := Lookup(ts, MM, 0, current.role);
          if at.None? || at.value == j + 1 {
            return true;
          }
          ghost var e := View();
          var failed := ProcedureComplete();
          CompletedTs(e);
          if at.value > j {
            j := j + 1;
          }
        } else {
          j := j + 1;
        }
      }
      return false;
    }
  }

  lemma IdleUntimed(e: Endpoint)
    requires Inv(e)
    ensures !e.Active(INITIATOR) ==> !e.ini.timer
  {}

  lemma InitiateRefused(e: Endpoint, p: Procedure)
    ensures !e.MayInitiate(p) ==> Initiate(e, p) == e
  {}
}
