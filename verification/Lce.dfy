// The Link Control Entity of ETSI EN 300 175-5, clause 14: data links, the transactions they carry,
// and the reference-counted message buffers that queues and transactions hold.
// Links and buffers are named by numbers never given out twice; Aborted is a failed assertion, BUG(), or a
// pointer followed that is NULL or leads to a link that was freed.
module Lce {
  import opened Common

  datatype Role = INITIATOR | RESPONDER

  function Opposite(role: Role): Role {
    if role == INITIATOR then RESPONDER else INITIATOR
  }

  datatype LinkState = RELEASED | ESTABLISHED | ESTABLISH_PENDING | RELEASE_PENDING

  // What the SDU timer is currently set up for.
  datatype Timer = Stopped | Sdu | Maintain

  datatype ReleaseMode = NORMAL | PARTIAL

  // Protocol discriminators
  const LCE := 0
  const CC := 3
  const CISS := 4
  const MM := 5
  const CLMS := 6
  const COMS := 7

  const TV_CONNECTIONLESS := 6

  predicate Registered(pd: nat) {
    pd == LCE || pd == CC || pd == CISS || pd == MM || pd == CLMS
  }

  function MaxTransactions(pd: nat): nat {
    if pd == CC || pd == CISS then 7 else 1
  }

  datatype Message = Message(octet0: nat, kind: nat, body: seq<nat>)

  // born numbers the transactions in the order they were linked.
  datatype Transaction = Transaction(pd: nat, role: Role, tv: nat, link: nat, mb: Option<nat>, born: nat)

  // How a link comes about: the peer connects, or we do, at once or by paging for a connection of the peer.
  datatype Origin = Incoming | Connecting | Paging

  // paging says that the page timer runs; such a link has no socket. releases counts the release timers that
  // were started and have not run out; the link remembers the last.
  datatype Link = Link(
    id: nat, state: LinkState, timer: Timer, queue: seq<nat>, transactions: seq<Transaction>, paging: bool, releases: nat)

  datatype Buffer = Buffer(refcnt: nat, msg: Message)

  datatype Sent = Sent(link: nat, msg: Message)

  // endpoints holds the link of every MM endpoint that has one; next is the next unused number; lost are the
  // references of transactions that went out of scope; stale counts the timers that outlived their link.
  datatype World = World(
    links: seq<Link>, bufs: map<nat, Buffer>, endpoints: seq<nat>, sent: seq<Sent>, next: nat,
    lost: multiset<nat>, stale: nat)

  datatype Outcome = Done(w: World) | Aborted

  const EMPTY: World := World([], map[], [], [], 0, multiset{}, 0)

  // ----- Transactions of one link -----

  function Lookup(ts: seq<Transaction>, pd: nat, tv: nat, role: Role): (i: Option<nat>)
    ensures i.Some? ==> i.value < |ts| && Matches(ts[i.value], pd, tv, role)
    ensures i.None? ==> forall j | 0 <= j < |ts| :: !Matches(ts[j], pd, tv, role)
  {
    LookupFrom(ts, pd, tv, role, 0)
  }

  function LookupFrom(ts: seq<Transaction>, pd: nat, tv: nat, role: Role, i: nat): (r: Option<nat>)
    requires i <= |ts|
    ensures r.Some? ==> i <= r.value < |ts| && Matches(ts[r.value], pd, tv, role)
    ensures r.None? ==> forall j | i <= j < |ts| :: !Matches(ts[j], pd, tv, role)
    decreases |ts| - i
  {
    if i == |ts| then None
    else if Matches(ts[i], pd, tv, role) then Some(i)
    else LookupFrom(ts, pd, tv, role, i + 1)
  }

  predicate Matches(t: Transaction, pd: nat, tv: nat, role: Role) {
    t.pd == pd && t.tv == tv && t.role == role
  }

  // The least free initiator value.
  function AllocTv(ts: seq<Transaction>, pd: nat): (tv: Option<nat>) {
    AllocFrom(ts, pd, 0)
  }

  function AllocFrom(ts: seq<Transaction>, pd: nat, tv: nat): (r: Option<nat>)
    requires tv <= MaxTransactions(pd)
    ensures r.Some? ==> tv <= r.value < MaxTransactions(pd) && Lookup(ts, pd, r.value, INITIATOR).None?
    ensures forall u | tv <= u < (if r.Some? then r.value else MaxTransactions(pd)) :: Lookup(ts, pd, u, INITIATOR).Some?
    decreases MaxTransactions(pd) - tv
  {
    if tv == MaxTransactions(pd) then None
    else if Lookup(ts, pd, tv, INITIATOR).None? then Some(tv)
    else AllocFrom(ts, pd, tv + 1)
  }

  // MM transactions go to the end, in front of a trailing one; all others to the front.
  function Insert(ts: seq<Transaction>, t: Transaction): seq<Transaction> {
    if t.pd == MM then
      if ts != [] && ts[|ts| - 1].pd == MM then ts[..|ts| - 1] + [t, ts[|ts| - 1]] else ts + [t]
    else [t] + ts
  }

  // ----- Message header -----

  function Octet0(pd: nat, tv: nat, role: Role): nat {
    pd + 16 * tv + (if role == RESPONDER then 128 else 0)
  }

  datatype Header = Ignored | Connectionless | Existing(i: nat) | New(pd: nat, tv: nat)

  // What a link does with a received header: F set means that the sender is the responder.
  function Receive(ts: seq<Transaction>, octet0: nat): (r: Header)
    ensures r.Existing? ==> r.i < |ts|
    ensures r.New? ==> Registered(r.pd) && r.tv < MaxTransactions(r.pd)
  {
    var f := octet0 / 128 % 2 == 1;
    var tv := octet0 / 16 % 8;
    var pd := octet0 % 16;
    if !Registered(pd) || tv >= MaxTransactions(pd) then Ignored
    else if pd == CLMS && tv == TV_CONNECTIONLESS then Connectionless
    else
      match Lookup(ts, pd, tv, if f then INITIATOR else RESPONDER)
      case Some(i) => Existing(i)
      case None => New(pd, tv)
  }

  // ----- Buffers -----

  // dect_mbuf_free: drop one reference, and the buffer with the last one.
  function Free(bufs: map<nat, Buffer>, mb: nat): map<nat, Buffer> {
    if mb in bufs && bufs[mb].refcnt > 1 then bufs[mb := bufs[mb].(refcnt := bufs[mb].refcnt - 1)] else bufs - {mb}
  }

  function Hold(bufs: map<nat, Buffer>, mb: nat): map<nat, Buffer> {
    if mb in bufs then bufs[mb := bufs[mb].(refcnt := bufs[mb].refcnt + 1)] else bufs
  }

  function FreeIf(bufs: map<nat, Buffer>, mb: Option<nat>): map<nat, Buffer> {
    if mb.Some? then Free(bufs, mb.value) else bufs
  }

  function FreeAll(bufs: map<nat, Buffer>, q: seq<nat>): map<nat, Buffer> {
    if q == [] then bufs else FreeAll(Free(bufs, q[0]), q[1..])
  }

  function Text(bufs: map<nat, Buffer>, mb: nat): Message {
    if mb in bufs then bufs[mb].msg else Message(0, 0, [])
  }

  // ----- Steps -----

  function SetLink(w: World, k: nat, l: Link): World
    requires k < |w.links|
  {
    w.(links := w.links[k := l])
  }

  // dect_ddl_send: transmit and drop the caller's reference.
  function Transmit(w: World, link: nat, mb: nat): World {
    w.(sent := w.sent + [Sent(link, Text(w.bufs, mb))], bufs := Free(w.bufs, mb))
  }

  function Flush(w: World, link: nat, q: seq<nat>): (v: World)
    ensures v.links == w.links && v.endpoints == w.endpoints && v.next == w.next && v.lost == w.lost && v.stale == w.stale
    decreases |q|
  {
    if q == [] then w else Flush(Transmit(w, link, q[0]), link, q[1..])
  }

  function Established(id: nat, how: Origin): Link {
    if how.Incoming? then Link(id, ESTABLISHED, Sdu, [], [], false, 0)
    else Link(id, ESTABLISH_PENDING, Stopped, [], [], how.Paging?, 0)
  }

  function Establish(w: World, how: Origin): World {
    w.(links := w.links + [Established(w.next, how)], next := w.next + 1)
  }

  function LinkIn(w: World, k: nat, pd: nat, tv: nat, role: Role): World
    requires k < |w.links|
  {
    var l := w.links[k];
    SetLink(w, k, l.(transactions := Insert(l.transactions, Transaction(pd, role, tv, l.id, None, w.next)))).(next := w.next + 1)
  }

  function Open(w: World, k: nat, pd: nat): World
    requires k < |w.links|
  {
    match AllocTv(w.links[k].transactions, pd)
    case None => w
    case Some(tv) => LinkIn(w, k, pd, tv, INITIATOR)
  }

  // A new MM endpoint goes to the end of the list.
  function Bind(w: World, k: nat): World
    requires k < |w.links|
  {
    w.(endpoints := w.endpoints + [w.links[k].id])
  }

  // The user destroys an endpoint, or a shutdown that ended its last procedure clears its link.
  function Unbind(w: World, e: nat): World
    requires e < |w.endpoints|
  {
    w.(endpoints := w.endpoints[..e] + w.endpoints[e + 1..])
  }

  // The first MM endpoint of a link moves to another one, or goes with it.
  function Rebind(es: seq<nat>, from: nat, to: Option<nat>): seq<nat> {
    if es == [] then []
    else if es[0] == from then (if to.Some? then [to.value] else []) + es[1..]
    else [es[0]] + Rebind(es[1..], from, to)
  }

  // The timers that dect_ddl_destroy does not stop: the page timer, and release timers but for the last.
  function Strays(l: Link): nat {
    (if l.paging then 1 else 0) + (if l.releases > 1 then l.releases - 1 else 0)
  }

  function Destroy(w: World, k: nat): (o: Outcome)
    requires k < |w.links|
  {
    var l := w.links[k];
    if l.transactions != [] then Aborted
    else Done(w.(links := w.links[..k] + w.links[k + 1..], endpoints := Rebind(w.endpoints, l.id, None),
                 bufs := FreeAll(w.bufs, l.queue), stale := w.stale + Strays(l)))
  }

  // The socket may refuse a half-close, which destroys the link at once.
  function Release(w: World, k: nat, refused: bool): Outcome
    requires k < |w.links|
  {
    var l := w.links[k];
    if refused then Destroy(w, k) else Done(SetLink(w, k, l.(state := RELEASE_PENDING, releases := l.releases + 1)))
  }

  function Without(ts: seq<Transaction>, i: nat): seq<Transaction>
    requires i < |ts|
  {
    ts[..i] + ts[i + 1..]
  }

  function Unlink(w: World, k: nat, i: nat): World
    requires k < |w.links| && i < |w.links[k].transactions|
  {
    var l := w.links[k];
    SetLink(w, k, l.(transactions := Without(l.transactions, i))).(bufs := FreeIf(w.bufs, l.transactions[i].mb))
  }

  function Close(w: World, k: nat, i: nat, mode: ReleaseMode, refused: bool): Outcome
    requires k < |w.links| && i < |w.links[k].transactions|
  {
    var pd := w.links[k].transactions[i].pd;
    var v := Unlink(w, k, i);
    var l := v.links[k];
    if l.state == ESTABLISH_PENDING || (l.state == RELEASED && l.transactions == []) then
      if pd == CC || pd == COMS then Destroy(v, k) else Done(v)
    else match mode
      case NORMAL => if l.transactions != [] then Done(v) else Release(v, k, refused)
      case PARTIAL => Done(SetLink(v, k, l.(timer := Maintain)))
  }

  // A fresh message for a transaction, which remembers it for retransmission.
  function Submit(w: World, k: nat, i: nat, kind: nat, body: seq<nat>): World
    requires k < |w.links| && i < |w.links[k].transactions|
  {
    var l, t := w.links[k], w.links[k].transactions[i];
    var msg := Message(Octet0(t.pd, t.tv, t.role), kind, body);
    w.(links := w.links[k := l.(timer := Stopped, transactions := l.transactions[i := t.(mb := Some(w.next))])],
       bufs := FreeIf(w.bufs, t.mb)[w.next := Buffer(2, msg)], next := w.next + 1)
  }

  // Hand a buffer to the link: transmit at once or wait for the establishment.
  function Dispatch(w: World, k: nat, mb: nat): (o: Outcome)
    requires k < |w.links|
    ensures o.Done? ==> |o.w.links| == |w.links|
  {
    var l := w.links[k];
    match l.state
    case ESTABLISHED => Done(Transmit(w, l.id, mb))
    case ESTABLISH_PENDING => Done(SetLink(w, k, l.(queue := l.queue + [mb])))
    case _ => Aborted
  }

  function Send(w: World, k: nat, i: nat, kind: nat, body: seq<nat>): Outcome
    requires k < |w.links| && i < |w.links[k].transactions|
  {
    Dispatch(Submit(w, k, i, kind, body), k, w.next)
  }

  // A message on a transaction of the caller's, whose reference nobody drops.
  function Reply(w: World, k: nat, pd: nat, tv: nat, kind: nat, body: seq<nat>): (o: Outcome)
    requires k < |w.links|
    ensures o.Done? ==> |o.w.links| == |w.links|
  {
    var msg := Message(Octet0(pd, tv, RESPONDER), kind, body);
    Dispatch(w.(bufs := w.bufs[w.next := Buffer(2, msg)], next := w.next + 1, lost := w.lost + multiset{w.next}), k, w.next)
  }

  function Reject(w: World, k: nat, pd: nat, tv: nat, kind: nat, body: seq<nat>, refused: bool): Outcome
    requires k < |w.links|
  {
    match Reply(w, k, pd, tv, kind, body)
    case Aborted => Aborted
    case Done(v) => Release(v, k, refused)
  }

  // What a protocol does with a message that belongs to no transaction: take it, ignore it, or answer it on a
  // transaction that is never linked. A page response that is rejected also releases its link, and one
  // without an identity is not survived.
  datatype Opening =
    | Takes
    | Declines
    | Answers(kind: nat, body: seq<nat>)
    | Rejects(kind: nat, body: seq<nat>, refused: bool)
    | Lacks

  // If the protocol confirms the transaction we are its responder, whatever F says.
  function Arrive(w: World, k: nat, octet0: nat, how: Opening): Outcome
    requires k < |w.links|
  {
    var v := SetLink(w, k, w.links[k].(timer := Stopped));
    match Receive(w.links[k].transactions, octet0)
    case Ignored => Done(w)
    case New(pd, tv) => Opened(v, k, pd, tv, how)
    case _ => Done(v)
  }

  function Opened(w: World, k: nat, pd: nat, tv: nat, how: Opening): Outcome
    requires k < |w.links|
  {
    match how
    case Takes => Done(LinkIn(w, k, pd, tv, RESPONDER))
    case Declines => Done(w)
    case Answers(kind, body) => Reply(w, k, pd, tv, kind, body)
    case Rejects(kind, body, refused) => Reject(w, k, pd, tv, kind, body, refused)
    case Lacks => Aborted
  }

  function SendCl(w: World, k: nat, pd: nat, kind: nat, body: seq<nat>): Outcome
    requires k < |w.links|
  {
    var msg := Message(Octet0(pd, TV_CONNECTIONLESS, INITIATOR), kind, body);
    Dispatch(w.(bufs := w.bufs[w.next := Buffer(1, msg)], next := w.next + 1), k, w.next)
  }

  function Retransmit(w: World, k: nat, i: nat): World
    requires k < |w.links| && i < |w.links[k].transactions|
  {
    var l, t := w.links[k], w.links[k].transactions[i];
    if t.mb.Some? && l.state == ESTABLISHED then
      Transmit(w.(bufs := Hold(w.bufs, t.mb.value)), l.id, t.mb.value)
    else w
  }

  // The connect of an outgoing link succeeded: send what waited for it.
  function CompleteDirect(w: World, k: nat): World
    requires k < |w.links|
  {
    var l := w.links[k];
    if l.state != ESTABLISH_PENDING then w else
      Flush(SetLink(w, k, l.(state := ESTABLISHED, queue := [])), l.id, l.queue)
  }

  function Moved(ts: seq<Transaction>, link: nat): (r: seq<Transaction>)
    ensures |r| == |ts|
    ensures forall i | 0 <= i < |ts| :: r[i] == ts[i].(link := link)
  {
    if ts == [] then [] else [ts[0].(link := link)] + Moved(ts[1..], link)
  }

  // The peer answered a page on link k: everything of the pending link r moves there, and r goes. If r was
  // connecting instead of paging there is no page timer to stop.
  function CompleteIndirect(w: World, k: nat, r: nat): (o: Outcome)
    requires k < |w.links| && r < |w.links| && k != r
    ensures !w.links[r].paging ==> o.Aborted?
  {
    var l, req := w.links[k], w.links[r];
    var ts := l.transactions + Moved(req.transactions, l.id);
    var timer := if ts == [] then Maintain else l.timer;
    var v := w.(links := w.links[k := l.(transactions := ts, timer := timer)]
                                [r := req.(transactions := [], queue := [], paging := false)],
                endpoints := Rebind(w.endpoints, req.id, Some(l.id)));
    if req.paging then Destroy(Flush(v, l.id, req.queue), r) else Aborted
  }

  // The link is gone: every protocol is told to end its transactions, first to last. A paging link is given up
  // by its page timer, which has run out then.
  function Down(w: World, k: nat): World
    requires k < |w.links|
  {
    SetLink(w, k, w.links[k].(state := RELEASED, paging := false))
  }

  function Shutdown(w: World, k: nat, modes: seq<ReleaseMode>): Outcome
    requires k < |w.links| && |modes| == |w.links[k].transactions|
  {
    if w.links[k].transactions == [] then Destroy(Down(w, k), k) else CloseAll(Down(w, k), k, modes)
  }

  // Each handler closes its own transaction, in list order; when that of MM does so is shown in LinkDown.
  function CloseAll(w: World, k: nat, modes: seq<ReleaseMode>): (o: Outcome)
    requires k < |w.links| && |modes| == |w.links[k].transactions|
    requires w.links[k].state == RELEASED
    decreases |modes|
  {
    if |modes| == 0 then Done(w)
    else if |modes| == 1 then Close(w, k, 0, modes[0], false)
    else CloseAll(Close(w, k, 0, modes[0], false).w, k, modes[1..])
  }

  function TimerExpires(w: World, k: nat): Outcome
    requires k < |w.links|
  {
    var l := w.links[k];
    match l.timer
    case Stopped => Done(w)
    case Sdu => Destroy(w, k)
    case Maintain => if l.transactions == [] then Destroy(w, k) else Done(SetLink(w, k, l.(timer := Stopped)))
  }

  // A release timer that a later one replaced runs out.
  function Overdue(w: World, k: nat): Outcome
    requires k < |w.links| && w.links[k].releases > 1
  {
    match Destroy(w, k)
    case Aborted => Aborted
    case Done(v) => Done(v.(stale := v.stale - 1))
  }
}
