// The requests, as small programs that interleave.
//
// A request is a call and a program counter that carries its local variables. One step of it is one
// clock reading, one Redis script, one read of the database or one transaction. What the environment
// decides comes in as an Input: the clock reading, the answer of Redis, whether the database is
// reachable, fresh ids, the result order of a query. Nothing ties clock readings or Redis answers to
// anything here; the module Timed does that for the properties that need it.
module Protocol {
  import opened Domain
  import opened Database
  import opened StoreInvariant
  import opened Money
  import opened Sorting

  datatype Call =
    | CreateHold(user: Id, showtime: Id, seats: seq<Id>, key: Id)
    | ReleaseHold(user: Id, hold: Id)
    | Confirm(user: Id, hold: Id, key: Id)
    | ExpireDueHolds(limit: nat)

  datatype Code =
    | InvalidSeats | KeyReused | ShowtimeUnavailable | LockServiceUnavailable | SeatUnavailable
    | HoldCreationFailed | HoldNotFound | Forbidden | HoldExpired | HoldInvalid
    | BookingConfirmationFailed | Internal

  // One sweep of the worker: the holds the query returned, and how far it has come.
  datatype Sweep = Sweep(
    now: Time, due: seq<Hold>, next: nat, failed: set<Id>, counted: set<Id>, processed: nat)

  datatype Answer =
    | HoldMade(hold: Hold, existing: bool)
    | HoldGivenUp(hold: Hold)
    | BookingMade(booking: Booking, existing: bool)
    | Swept(sweep: Sweep)
    | Rejected(code: Code)

  datatype Pc =
    // CreateHold
    | CLookup
    | CClock
    | CPrepare(now: Time)
    | CAcquire(hold: Hold, now: Time)
    | CInsert(hold: Hold, now: Time)
    | CUndo(hold: Hold, error: TxError)
    | CRecover
    // ReleaseHold
    | RLoad
    | RCommit(hold: Hold)
    | RReload(hold: Hold)
    | RUnlock(hold: Hold)
    // Confirm
    | FByKey
    | FByHold
    | FLoad
    | FClock(hold: Hold)
    | FVerify(hold: Hold)
    | FSeats(hold: Hold)
    | FTxClock(hold: Hold, draft: Booking, event: Id)
    | FCommit(hold: Hold, draft: Booking, event: Id, at: Time)
    | FReloadHold(hold: Hold, error: TxError)
    | FReloadKey(hold: Hold, error: TxError)
    | FUnlock(hold: Hold, draft: Booking)
    // ExpireDueHolds
    | SClock
    | SFetch(now: Time)
    | SItem(sweep: Sweep)
    | SCheck(sweep: Sweep)
    | SUnlock(sweep: Sweep)
    | Done(answer: Answer)

  datatype RedisAnswer = Yes | No | Down

  datatype Input = Input(
    time: Time, redis: RedisAnswer, reachable: bool, retry: bool, showtimeOpen: bool,
    id: Id, token: Id, number: Id, event: Id,
    order: seq<SeatRef>, due: seq<Hold>)

  datatype Proc = Proc(call: Call, pc: Pc)
  datatype State = State(ttl: Time, db: Db, procs: map<nat, Proc>)

  function Start(call: Call): Pc {
    match call
    case CreateHold(_, _, _, _) => CLookup
    case ReleaseHold(_, _) => RLoad
    case Confirm(_, _, _) => FByKey
    case ExpireDueHolds(_) => SClock
  }

  // ---------------------------------------------------------------- queries

  predicate IsHoldFor(db: Db, k: Id, user: Id, key: Id) {
    k in db.holds && db.holds[k].user == user && db.holds[k].key == key
  }

  ghost function FindHold(db: Db, user: Id, key: Id): Option<Hold> {
    if k :| IsHoldFor(db, k, user, key) then Some(db.holds[k]) else None
  }

  predicate IsBookingOf(db: Db, k: Id, user: Id, hold: Id) {
    k in db.bookings && db.bookings[k].user == user && db.bookings[k].hold == hold
  }

  ghost function FindBookingOf(db: Db, user: Id, hold: Id): Option<Booking> {
    if k :| IsBookingOf(db, k, user, hold) then Some(db.bookings[k]) else None
  }

  predicate IsBookingFor(db: Db, k: Id, user: Id, key: Id) {
    k in db.bookings && db.bookings[k].user == user && db.bookings[k].key == key
  }

  ghost function FindBookingFor(db: Db, user: Id, key: Id): Option<Booking> {
    if k :| IsBookingFor(db, k, user, key) then Some(db.bookings[k]) else None
  }

  // What sameHoldRequest compares; the module Naming proves the method against it.
  predicate SameRequest(h: Hold, showtime: Id, seats: seq<Id>) {
    h.showtime == showtime && multiset(h.seats) == multiset(seats)
  }

  ghost predicate Enumerates(order: seq<SeatRef>, refs: set<SeatRef>) {
    && (forall r :: r in order <==> r in refs)
    && (forall i, j :: 0 <= i < j < |order| ==> order[i] != order[j])
  }

  // The seats of a hold that a query over showtime_seats finds.
  function Found(db: Db, h: Hold): set<SeatRef> {
    set r | r in Refs(h) && r in db.seats
  }

  function NewHold(call: Call, now: Time, ttl: Time, id: Id, token: Id): Hold
    requires call.CreateHold?
  {
    Hold(id, call.user, call.showtime, call.seats, token, Active, now + ttl, call.key)
  }

  function Draft(db: Db, call: Call, h: Hold, order: seq<SeatRef>, id: Id, number: Id): Booking
    requires call.Confirm? && forall r :: r in order ==> r in db.seats
  {
    var lines := Sort(LinesOf(db.seats, order), LabelLe);
    Booking(id, number, h.id, call.user, h.showtime, lines, Amount(lines), call.key)
  }

  // ---------------------------------------------------------------- one step of a request

  // The inputs a step can get: query results are what the query would return.
  ghost predicate ValidInput(db: Db, call: Call, pc: Pc, input: Input) {
    match pc
    case FSeats(h) => input.reachable ==> Enumerates(input.order, Found(db, h))
    case SFetch(now) => input.reachable && call.ExpireDueHolds? ==> IsDueQuery(db, now, call.limit, input.due)
    case _ => true
  }

  // A hold found under the request's key.
  function Recognised(call: Call, h: Hold): Answer
    requires call.CreateHold?
  {
    if SameRequest(h, call.showtime, call.seats) then HoldMade(h, true) else Rejected(KeyReused)
  }

  ghost function AfterLookup(db: Db, call: Call, input: Input): Pc
    requires call.CreateHold?
  {
    if !FewSeats(call.seats) then Done(Rejected(InvalidSeats))
    else if !input.reachable then Done(Rejected(Internal))
    else match FindHold(db, call.user, call.key)
      case Some(h) => Done(Recognised(call, h))
      case None => CClock
  }

  function AfterPrepare(ttl: Time, db: Db, call: Call, now: Time, input: Input): Pc
    requires call.CreateHold?
  {
    var h := NewHold(call, now, ttl, input.id, input.token);
    if !input.reachable then Done(Rejected(Internal))
    else if !input.showtimeOpen then Done(Rejected(ShowtimeUnavailable))
    else if |Found(db, h)| != |call.seats| then Done(Rejected(InvalidSeats))
    else CAcquire(h, now)
  }

  function AfterAcquire(h: Hold, now: Time, input: Input): Pc {
    match input.redis
    case Yes => CInsert(h, now)
    case No => Done(Rejected(SeatUnavailable))
    case Down => Done(Rejected(LockServiceUnavailable))
  }

  ghost function AfterInsert(db: Db, h: Hold, now: Time, input: Input): (Db, Pc) {
    match if input.reachable then HoldTx(db, h, now) else Abort(StoreFailure)
    case Commit(db') => (db', Done(HoldMade(h, false)))
    case Abort(error) => (db, CUndo(h, error))
  }

  function AfterUndo(error: TxError): Pc {
    match error
    case DuplicateKey => CRecover
    case SeatMismatch => Done(Rejected(SeatUnavailable))
    case _ => Done(Rejected(HoldCreationFailed))
  }

  ghost function AfterRecover(db: Db, call: Call, input: Input): Pc
    requires call.CreateHold?
  {
    match if input.reachable then FindHold(db, call.user, call.key) else None
    case Some(h) => Done(Recognised(call, h))
    case None => Done(Rejected(HoldCreationFailed))
  }

  ghost function AdvanceCreate(ttl: Time, db: Db, call: Call, pc: Pc, input: Input): (Db, Pc)
    requires call.CreateHold?
  {
    match pc
    case CLookup => (db, AfterLookup(db, call, input))
    case CClock => (db, CPrepare(input.time))
    case CPrepare(now) => (db, AfterPrepare(ttl, db, call, now, input))
    case CAcquire(h, now) => (db, AfterAcquire(h, now, input))
    case CInsert(h, now) => AfterInsert(db, h, now, input)
    case CUndo(h, error) => (db, AfterUndo(error))
    case CRecover => (db, AfterRecover(db, call, input))
    case _ => (db, pc)
  }

  function AfterLoad(db: Db, call: Call, input: Input): Pc
    requires call.ReleaseHold?
  {
    if !input.reachable then Done(Rejected(Internal))
    else if call.hold !in db.holds then Done(Rejected(HoldNotFound))
    else if db.holds[call.hold].user != call.user then Done(Rejected(Forbidden))
    else if !db.holds[call.hold].status.Active? then Done(HoldGivenUp(db.holds[call.hold]))
    else RCommit(db.holds[call.hold])
  }

  function AfterGiveUp(db: Db, h: Hold, user: Id, input: Input): (Db, Pc) {
    match if input.reachable then ReleaseTx(db, h, user) else Abort(StoreFailure)
    case Commit(db') => (db', RUnlock(h.(status := Released)))
    case Abort(_) => (db, RReload(h))
  }

  function AfterReload(db: Db, h: Hold, input: Input): Pc {
    if input.reachable && h.id in db.holds && !db.holds[h.id].status.Active? then Done(HoldGivenUp(db.holds[h.id]))
    else Done(Rejected(Internal))
  }

  function AdvanceRelease(db: Db, call: Call, pc: Pc, input: Input): (Db, Pc)
    requires call.ReleaseHold?
  {
    match pc
    case RLoad => (db, AfterLoad(db, call, input))
    case RCommit(h) => AfterGiveUp(db, h, call.user, input)
    case RReload(h) => (db, AfterReload(db, h, input))
    case RUnlock(h) => (db, Done(HoldGivenUp(h)))
    case _ => (db, pc)
  }

  ghost function AfterByKey(db: Db, call: Call, input: Input): Pc
    requires call.Confirm?
  {
    if !input.reachable then Done(Rejected(Internal))
    else match FindBookingFor(db, call.user, call.key)
      case Some(b) => if b.hold != call.hold then Done(Rejected(KeyReused)) else Done(BookingMade(b, true))
      case None => FByHold
  }

  ghost function AfterByHold(db: Db, call: Call, input: Input): Pc
    requires call.Confirm?
  {
    if !input.reachable then Done(Rejected(Internal))
    else match FindBookingOf(db, call.user, call.hold)
      case Some(b) => Done(BookingMade(b, true))
      case None => FLoad
  }

  function AfterHoldLoad(db: Db, call: Call, input: Input): Pc
    requires call.Confirm?
  {
    if !input.reachable then Done(Rejected(Internal))
    else if call.hold !in db.holds then Done(Rejected(HoldNotFound))
    else if db.holds[call.hold].user != call.user then Done(Rejected(Forbidden))
    else FClock(db.holds[call.hold])
  }

  function AfterClock(h: Hold, input: Input): Pc {
    if !h.status.Active? || !(input.time < h.expiresAt) then Done(Rejected(HoldExpired)) else FVerify(h)
  }

  function AfterVerify(h: Hold, input: Input): Pc {
    match input.redis
    case Yes => FSeats(h)
    case No => Done(Rejected(HoldExpired))
    case Down => Done(Rejected(LockServiceUnavailable))
  }

  function AfterSeats(db: Db, call: Call, h: Hold, input: Input): Pc
    requires call.Confirm? && (input.reachable ==> forall r :: r in input.order ==> r in db.seats)
  {
    if !input.reachable then Done(Rejected(Internal))
    else if |input.order| != |h.seats| then Done(Rejected(HoldInvalid))
    else FTxClock(h, Draft(db, call, h, input.order, input.id, input.number), input.event)
  }

  // A transient failure makes the driver run the whole transaction again, clock reading included.
  ghost function AfterCommit(
    db: Db, user: Id, h: Hold, draft: Booking, event: Id, at: Time, input: Input): (Db, Pc)
  {
    if !input.reachable && input.retry then (db, FTxClock(h, draft, event))
    else
      match if input.reachable then ConfirmTx(db, h, user, draft, event, at) else Abort(StoreFailure)
      case Commit(db') => (db', FUnlock(h, draft))
      case Abort(error) => (db, FReloadHold(h, error))
  }

  function AfterAbort(error: TxError): Code {
    if error.HoldGone? || error.SeatMismatch? then HoldExpired else BookingConfirmationFailed
  }

  ghost function AfterReloadHold(db: Db, user: Id, h: Hold, error: TxError, input: Input): Pc {
    match if input.reachable then FindBookingOf(db, user, h.id) else None
    case Some(b) => Done(BookingMade(b, true))
    case None => FReloadKey(h, error)
  }

  ghost function AfterReloadKey(db: Db, call: Call, h: Hold, error: TxError, input: Input): Pc
    requires call.Confirm?
  {
    match if input.reachable then FindBookingFor(db, call.user, call.key) else None
    case Some(b) => if b.hold != h.id then Done(Rejected(KeyReused)) else Done(Rejected(AfterAbort(error)))
    case None => Done(Rejected(AfterAbort(error)))
  }

  ghost function AdvanceConfirm(db: Db, call: Call, pc: Pc, input: Input): (Db, Pc)
    requires call.Confirm? && ValidInput(db, call, pc, input)
  {
    match pc
    case FByKey => (db, AfterByKey(db, call, input))
    case FByHold => (db, AfterByHold(db, call, input))
    case FLoad => (db, AfterHoldLoad(db, call, input))
    case FClock(h) => (db, AfterClock(h, input))
    case FVerify(h) => (db, AfterVerify(h, input))
    case FSeats(h) => (db, AfterSeats(db, call, h, input))
    case FTxClock(h, draft, event) => (db, FCommit(h, draft, event, input.time))
    case FCommit(h, draft, event, at) => AfterCommit(db, call.user, h, draft, event, at, input)
    case FReloadHold(h, error) => (db, AfterReloadHold(db, call.user, h, error, input))
    case FReloadKey(h, error) => (db, AfterReloadKey(db, call, h, error, input))
    case FUnlock(h, draft) => (db, Done(BookingMade(draft, false)))
    case _ => (db, pc)
  }

  function Skipped(w: Sweep): Sweep {
    w.(next := w.next + 1)
  }

  function Failed(w: Sweep): Sweep
    requires w.next < |w.due|
  {
    w.(next := w.next + 1, failed := w.failed + {w.due[w.next].id})
  }

  function Counted(w: Sweep): Sweep
    requires w.next < |w.due|
  {
    w.(next := w.next + 1, counted := w.counted + {w.due[w.next].id}, processed := w.processed + 1)
  }

  function AfterFetch(now: Time, input: Input): Pc {
    if input.reachable then SItem(Sweep(now, input.due, 0, {}, {}, 0)) else Done(Rejected(Internal))
  }

  function AfterItem(db: Db, w: Sweep, input: Input): (Db, Pc) {
    if w.next >= |w.due| then (db, Done(Swept(w)))
    else if !input.reachable then (db, SItem(Failed(w)))
    else if Claimable(db, w.due[w.next], w.now) then (ExpireTx(db, w.due[w.next], w.now), SCheck(w))
    else (db, SItem(Skipped(w)))
  }

  function AfterCheck(db: Db, w: Sweep, input: Input): Pc
    requires w.next < |w.due|
  {
    var k := w.due[w.next].id;
    if input.reachable && k in db.holds && db.holds[k].status.Expired? then SUnlock(w) else SItem(Skipped(w))
  }

  function AdvanceSweep(db: Db, call: Call, pc: Pc, input: Input): (Db, Pc)
    requires call.ExpireDueHolds?
  {
    match pc
    case SClock => (db, SFetch(input.time))
    case SFetch(now) => (db, AfterFetch(now, input))
    case SItem(w) => AfterItem(db, w, input)
    case SCheck(w) => (db, if w.next < |w.due| then AfterCheck(db, w, input) else pc)
    case SUnlock(w) => (db, if w.next < |w.due| then SItem(Counted(w)) else pc)
    case _ => (db, pc)
  }

  ghost function Advance(ttl: Time, db: Db, call: Call, pc: Pc, input: Input): (Db, Pc)
    requires ValidInput(db, call, pc, input)
  {
    match call
    case CreateHold(_, _, _, _) => AdvanceCreate(ttl, db, call, pc, input)
    case ReleaseHold(_, _) => AdvanceRelease(db, call, pc, input)
    case Confirm(_, _, _) => AdvanceConfirm(db, call, pc, input)
    case ExpireDueHolds(_) => AdvanceSweep(db, call, pc, input)
  }

  // ---------------------------------------------------------------- the system

  datatype Label =
    | Begin(pid: nat, call: Call)
    | Move(pid: nat, input: Input)
    | Deliver

  ghost predicate CanMove(s: State, pid: nat, input: Input) {
    && pid in s.procs && !s.procs[pid].pc.Done?
    && ValidInput(s.db, s.procs[pid].call, s.procs[pid].pc, input)
  }

  ghost predicate Step(s: State, l: Label, s': State) {
    match l
    case Begin(pid, call) =>
      pid !in s.procs && s' == s.(procs := s.procs[pid := Proc(call, Start(call))])
    case Move(pid, input) =>
      && CanMove(s, pid, input)
      && var p := s.procs[pid];
      var (db', pc') := Advance(s.ttl, s.db, p.call, p.pc, input);
      s' == State(s.ttl, db', s.procs[pid := Proc(p.call, pc')])
    case Deliver =>
      OutboxTouched(s.db, s'.db) && s' == s.(db := s'.db)
  }

  ghost predicate Init(s: State) {
    InitialDb(s.db) && s.procs == map[]
  }
}
