// The four operations of the booking service as they are written: one call after another to Redis and to
// the database, with early returns.
//
// Each method is one uninterrupted run of the step program in the module Protocol. The environment comes
// in as a function: io.Nth(n) is what the n-th call meets.
module Service {
  import opened Domain
  import opened Database
  import opened StoreInvariant
  import opened Money
  import opened RedisLock
  import opened Protocol
  import opened ProtocolInvariant
  import opened Outcomes

  // ---------------------------------------------------------------- uninterrupted runs

  datatype Setting = Setting(ttl: Time, call: Call, db: Db)
  datatype Point = Point(db: Db, pc: Pc)
  datatype Trail = Trail(points: seq<Point>, inputs: seq<Input>)

  ghost predicate CanAdvance(g: Setting, a: Point, input: Input) {
    !a.pc.Done? && ValidInput(a.db, g.call, a.pc, input)
  }

  ghost function Advanced(g: Setting, a: Point, input: Input): Point
    requires CanAdvance(g, a, input)
  {
    var (db, pc) := Advance(g.ttl, a.db, g.call, a.pc, input);
    Point(db, pc)
  }

  ghost predicate IsMove(g: Setting, a: Point, input: Input, b: Point) {
    CanAdvance(g, a, input) && b == Advanced(g, a, input)
  }

  ghost predicate IsTrail(t: Trail, g: Setting) {
    && |t.points| == |t.inputs| + 1
    && t.points[0] == Point(g.db, Start(g.call))
    && forall i :: 0 <= i < |t.inputs| ==> IsMove(g, t.points[i], t.inputs[i], t.points[i + 1])
  }

  ghost predicate Reaches(t: Trail, g: Setting, end: Point) {
    IsTrail(t, g) && t.points[|t.points| - 1] == end
  }

  lemma SetOut(g: Setting) returns (t: Trail)
    ensures Reaches(t, g, Point(g.db, Start(g.call)))
  {
    t := Trail([Point(g.db, Start(g.call))], []);
  }

  lemma Extend(t: Trail, g: Setting, a: Point, input: Input) returns (t': Trail)
    requires Reaches(t, g, a) && CanAdvance(g, a, input)
    ensures Reaches(t', g, Advanced(g, a, input))
  {
    t' := Trail(t.points + [Advanced(g, a, input)], t.inputs + [input]);
  }

  // The states the system goes through while the request has it to itself.
  function During(s: State, pid: nat, call: Call, p: Point): State {
    State(s.ttl, p.db, s.procs[pid := Proc(call, p.pc)])
  }

  // Such a run is a run of the whole system, so all that holds of its interleavings holds here.
  lemma TrailIsSteps(s: State, pid: nat, call: Call, t: Trail)
    requires pid !in s.procs && IsTrail(t, Setting(s.ttl, call, s.db))
    ensures Step(s, Begin(pid, call), During(s, pid, call, t.points[0]))
    ensures forall i :: 0 <= i < |t.inputs| ==>
              Step(During(s, pid, call, t.points[i]), Move(pid, t.inputs[i]), During(s, pid, call, t.points[i + 1]))
  {
    forall i | 0 <= i < |t.inputs|
      ensures Step(During(s, pid, call, t.points[i]), Move(pid, t.inputs[i]), During(s, pid, call, t.points[i + 1]))
    {
      assert IsMove(Setting(s.ttl, call, s.db), t.points[i], t.inputs[i], t.points[i + 1]);
      var a, b := During(s, pid, call, t.points[i]), During(s, pid, call, t.points[i + 1]);
      assert a.procs[pid := Proc(call, t.points[i + 1].pc)] == b.procs;
    }
  }

  lemma MoveKeeps(g: Setting, a: Point, input: Input, b: Point)
    requires IsMove(g, a, input, b) && DbInv(a.db) && PcOk(a.db, g.call, a.pc)
    ensures DbInv(b.db) && PcOk(b.db, g.call, b.pc) && Evolves(a.db, b.db)
  {
    AdvanceOk(g.ttl, a.db, g.call, a.pc, input);
  }

  ghost predicate InOrder(g: Setting, p: Point) {
    DbInv(p.db) && PcOk(p.db, g.call, p.pc) && Evolves(g.db, p.db)
  }

  lemma MoveKeepsOrder(g: Setting, a: Point, input: Input, b: Point)
    requires IsMove(g, a, input, b) && InOrder(g, a)
    ensures InOrder(g, b)
  {
    MoveKeeps(g, a, input, b);
    EvolvesTransitive(g.db, a.db, b.db);
  }

  lemma StartInOrder(g: Setting)
    requires DbInv(g.db)
    ensures InOrder(g, Point(g.db, Start(g.call)))
  {
    EvolvesReflexive(g.db);
  }

  lemma EndInOrder(g: Setting, db: Db, answer: Answer)
    requires InOrder(g, Point(db, Done(answer)))
    ensures DbInv(db) && Evolves(g.db, db) && AnswerOk(db, g.call, answer)
  {
  }

  lemma TurnInOrder(t: Trail, g: Setting, i: nat)
    requires IsTrail(t, g) && i < |t.inputs| && InOrder(g, t.points[i])
    ensures InOrder(g, t.points[i + 1])
  {
    MoveKeepsOrder(g, t.points[i], t.inputs[i], t.points[i + 1]);
  }

  lemma {:induction false} TrailInOrder(t: Trail, g: Setting, i: nat)
    requires IsTrail(t, g) && InOrder(g, t.points[0]) && i < |t.points|
    ensures InOrder(g, t.points[i])
  {
    if i > 0 {
      TrailInOrder(t, g, i - 1);
      TurnInOrder(t, g, i - 1);
    }
  }

  // Whatever a request meets, it leaves a database in order, and its answer is true of it.
  lemma AnswerIsTrue(t: Trail, g: Setting, db: Db, answer: Answer)
    requires Reaches(t, g, Point(db, Done(answer))) && DbInv(g.db)
    ensures DbInv(db) && Evolves(g.db, db) && AnswerOk(db, g.call, answer)
  {
    StartInOrder(g);
    TrailInOrder(t, g, |t.inputs|);
    EndInOrder(g, db, answer);
  }

  // ---------------------------------------------------------------- one call further

  // Where the calls of a request lead, one lemma for each, so that a method need not look at the whole program.

  function At(next: (Db, Pc)): Point {
    Point(next.0, next.1)
  }

  lemma FromCLookup(t: Trail, g: Setting, db: Db, input: Input) returns (t': Trail)
    requires g.call.CreateHold? && Reaches(t, g, Point(db, CLookup))
    ensures Reaches(t', g, Point(db, AfterLookup(db, g.call, input)))
  {
    t' := Extend(t, g, Point(db, CLookup), input);
  }

  lemma FromCClock(t: Trail, g: Setting, db: Db, input: Input) returns (t': Trail)
    requires g.call.CreateHold? && Reaches(t, g, Point(db, CClock))
    ensures Reaches(t', g, Point(db, CPrepare(input.time)))
  {
    t' := Extend(t, g, Point(db, CClock), input);
  }

  lemma FromCPrepare(t: Trail, g: Setting, db: Db, input: Input, now: Time) returns (t': Trail)
    requires g.call.CreateHold? && Reaches(t, g, Point(db, CPrepare(now)))
    ensures Reaches(t', g, Point(db, AfterPrepare(g.ttl, db, g.call, now, input)))
  {
    t' := Extend(t, g, Point(db, CPrepare(now)), input);
  }

  lemma FromCAcquire(t: Trail, g: Setting, db: Db, input: Input, h: Hold, now: Time) returns (t': Trail)
    requires g.call.CreateHold? && Reaches(t, g, Point(db, CAcquire(h, now)))
    ensures Reaches(t', g, Point(db, AfterAcquire(h, now, input)))
  {
    t' := Extend(t, g, Point(db, CAcquire(h, now)), input);
  }

  lemma FromCInsert(t: Trail, g: Setting, db: Db, input: Input, h: Hold, now: Time) returns (t': Trail)
    requires g.call.CreateHold? && Reaches(t, g, Point(db, CInsert(h, now)))
    ensures Reaches(t', g, At(AfterInsert(db, h, now, input)))
  {
    t' := Extend(t, g, Point(db, CInsert(h, now)), input);
  }

  lemma FromCUndo(t: Trail, g: Setting, db: Db, input: Input, h: Hold, error: TxError) returns (t': Trail)
    requires g.call.CreateHold? && Reaches(t, g, Point(db, CUndo(h, error)))
    ensures Reaches(t', g, Point(db, AfterUndo(error)))
  {
    t' := Extend(t, g, Point(db, CUndo(h, error)), input);
  }

  lemma FromCRecover(t: Trail, g: Setting, db: Db, input: Input) returns (t': Trail)
    requires g.call.CreateHold? && Reaches(t, g, Point(db, CRecover))
    ensures Reaches(t', g, Point(db, AfterRecover(db, g.call, input)))
  {
    t' := Extend(t, g, Point(db, CRecover), input);
  }

  lemma FromRLoad(t: Trail, g: Setting, db: Db, input: Input) returns (t': Trail)
    requires g.call.ReleaseHold? && Reaches(t, g, Point(db, RLoad))
    ensures Reaches(t', g, Point(db, AfterLoad(db, g.call, input)))
  {
    t' := Extend(t, g, Point(db, RLoad), input);
  }

  lemma FromRCommit(t: Trail, g: Setting, db: Db, input: Input, h: Hold) returns (t': Trail)
    requires g.call.ReleaseHold? && Reaches(t, g, Point(db, RCommit(h)))
    ensures Reaches(t', g, At(AfterGiveUp(db, h, g.call.user, input)))
  {
    t' := Extend(t, g, Point(db, RCommit(h)), input);
  }

  lemma FromRReload(t: Trail, g: Setting, db: Db, input: Input, h: Hold) returns (t': Trail)
    requires g.call.ReleaseHold? && Reaches(t, g, Point(db, RReload(h)))
    ensures Reaches(t', g, Point(db, AfterReload(db, h, input)))
  {
    t' := Extend(t, g, Point(db, RReload(h)), input);
  }

  lemma FromRUnlock(t: Trail, g: Setting, db: Db, input: Input, h: Hold) returns (t': Trail)
    requires g.call.ReleaseHold? && Reaches(t, g, Point(db, RUnlock(h)))
    ensures Reaches(t', g, Point(db, Done(HoldGivenUp(h))))
  {
    t' := Extend(t, g, Point(db, RUnlock(h)), input);
  }

  lemma FromFByKey(t: Trail, g: Setting, db: Db, input: Input) returns (t': Trail)
    requires g.call.Confirm? && Reaches(t, g, Point(db, FByKey))
    ensures Reaches(t', g, Point(db, AfterByKey(db, g.call, input)))
  {
    t' := Extend(t, g, Point(db, FByKey), input);
  }

  lemma FromFByHold(t: Trail, g: Setting, db: Db, input: Input) returns (t': Trail)
    requires g.call.Confirm? && Reaches(t, g, Point(db, FByHold))
    ensures Reaches(t', g, Point(db, AfterByHold(db, g.call, input)))
  {
    t' := Extend(t, g, Point(db, FByHold), input);
  }

  lemma FromFLoad(t: Trail, g: Setting, db: Db, input: Input) returns (t': Trail)
    requires g.call.Confirm? && Reaches(t, g, Point(db, FLoad))
    ensures Reaches(t', g, Point(db, AfterHoldLoad(db, g.call, input)))
  {
    t' := Extend(t, g, Point(db, FLoad), input);
  }

  lemma FromFClock(t: Trail, g: Setting, db: Db, input: Input, h: Hold) returns (t': Trail)
    requires g.call.Confirm? && Reaches(t, g, Point(db, FClock(h)))
    ensures Reaches(t', g, Point(db, AfterClock(h, input)))
  {
    t' := Extend(t, g, Point(db, FClock(h)), input);
  }

  lemma FromFVerify(t: Trail, g: Setting, db: Db, input: Input, h: Hold) returns (t': Trail)
    requires g.call.Confirm? && Reaches(t, g, Point(db, FVerify(h)))
    ensures Reaches(t', g, Point(db, AfterVerify(h, input)))
  {
    t' := Extend(t, g, Point(db, FVerify(h)), input);
  }

  lemma FromFSeats(t: Trail, g: Setting, db: Db, input: Input, h: Hold) returns (t': Trail)
    requires g.call.Confirm? && Reaches(t, g, Point(db, FSeats(h)))
    requires input.reachable ==> Enumerates(input.order, Found(db, h))
    ensures Reaches(t', g, Point(db, AfterSeats(db, g.call, h, input)))
  {
    t' := Extend(t, g, Point(db, FSeats(h)), input);
  }

  lemma FromFTxClock(t: Trail, g: Setting, db: Db, input: Input, h: Hold, draft: Booking, event: Id) returns (t': Trail)
    requires g.call.Confirm? && Reaches(t, g, Point(db, FTxClock(h, draft, event)))
    ensures Reaches(t', g, Point(db, FCommit(h, draft, event, input.time)))
  {
    t' := Extend(t, g, Point(db, FTxClock(h, draft, event)), input);
  }

  lemma FromFCommit(
    t: Trail, g: Setting, db: Db, input: Input, h: Hold, draft: Booking, event: Id, at: Time) returns (t': Trail)
    requires g.call.Confirm? && Reaches(t, g, Point(db, FCommit(h, draft, event, at)))
    ensures Reaches(t', g, At(AfterCommit(db, g.call.user, h, draft, event, at, input)))
  {
    t' := Extend(t, g, Point(db, FCommit(h, draft, event, at)), input);
  }

  lemma FromFReloadHold(t: Trail, g: Setting, db: Db, input: Input, h: Hold, error: TxError) returns (t': Trail)
    requires g.call.Confirm? && Reaches(t, g, Point(db, FReloadHold(h, error)))
    ensures Reaches(t', g, Point(db, AfterReloadHold(db, g.call.user, h, error, input)))
  {
    t' := Extend(t, g, Point(db, FReloadHold(h, error)), input);
  }

  lemma FromFReloadKey(t: Trail, g: Setting, db: Db, input: Input, h: Hold, error: TxError) returns (t': Trail)
    requires g.call.Confirm? && Reaches(t, g, Point(db, FReloadKey(h, error)))
    ensures Reaches(t', g, Point(db, AfterReloadKey(db, g.call, h, error, input)))
  {
    t' := Extend(t, g, Point(db, FReloadKey(h, error)), input);
  }

  lemma FromFUnlock(t: Trail, g: Setting, db: Db, input: Input, h: Hold, draft: Booking) returns (t': Trail)
    requires g.call.Confirm? && Reaches(t, g, Point(db, FUnlock(h, draft)))
    ensures Reaches(t', g, Point(db, Done(BookingMade(draft, false))))
  {
    t' := Extend(t, g, Point(db, FUnlock(h, draft)), input);
  }

  lemma FromSClock(t: Trail, g: Setting, db: Db, input: Input) returns (t': Trail)
    requires g.call.ExpireDueHolds? && Reaches(t, g, Point(db, SClock))
    ensures Reaches(t', g, Point(db, SFetch(input.time)))
  {
    t' := Extend(t, g, Point(db, SClock), input);
  }

  lemma FromSFetch(t: Trail, g: Setting, db: Db, input: Input, now: Time) returns (t': Trail)
    requires g.call.ExpireDueHolds? && Reaches(t, g, Point(db, SFetch(now)))
    requires input.reachable ==> IsDueQuery(db, now, g.call.limit, input.due)
    ensures Reaches(t', g, Point(db, AfterFetch(now, input)))
  {
    t' := Extend(t, g, Point(db, SFetch(now)), input);
  }

  lemma FromSItem(t: Trail, g: Setting, db: Db, input: Input, w: Sweep) returns (t': Trail)
    requires g.call.ExpireDueHolds? && Reaches(t, g, Point(db, SItem(w)))
    ensures Reaches(t', g, At(AfterItem(db, w, input)))
  {
    t' := Extend(t, g, Point(db, SItem(w)), input);
  }

  lemma FromSCheck(t: Trail, g: Setting, db: Db, input: Input, w: Sweep) returns (t': Trail)
    requires g.call.ExpireDueHolds? && Reaches(t, g, Point(db, SCheck(w)))
    requires w.next < |w.due|
    ensures Reaches(t', g, Point(db, AfterCheck(db, w, input)))
  {
    t' := Extend(t, g, Point(db, SCheck(w)), input);
  }

  lemma FromSUnlock(t: Trail, g: Setting, db: Db, input: Input, w: Sweep) returns (t': Trail)
    requires g.call.ExpireDueHolds? && Reaches(t, g, Point(db, SUnlock(w)))
    requires w.next < |w.due|
    ensures Reaches(t', g, Point(db, SItem(Counted(w))))
  {
    t' := Extend(t, g, Point(db, SUnlock(w)), input);
  }

  // ---------------------------------------------------------------- the service

  predicate IsFresh(a: Answer) {
    (a.HoldMade? || a.BookingMade?) && !a.existing
  }

  // A release that fails leaves its keys to their time to live.
  function Unlocked(data: Keyspace, h: Hold, now: Time, down: bool): Keyspace {
    if down then data else Freed(data, KeysOf(h), OwnerOf(h), now)
  }

  // Some attempt at the confirmation transaction has committed, with its own clock reading.
  ghost predicate CommitsAt(db: Db, h: Hold, user: Id, b: Booking, io: Calls, db': Db) {
    exists n: nat :: ConfirmTx(db, h, user, b, io.Nth(5).event, io.Nth(n).time) == Commit(db')
  }

  function Said(reply: Reply): RedisAnswer {
    if reply.Granted? then Yes else No
  }

  // ---------------------------------------------------------------- what the transactions find

  lemma CountedSeats(db: Db, h: Hold)
    ensures |Found(db, h)| == |h.seats| <==> SeatsAreThere(db, h)
  {
    RefsSize(h);
    SubsetSize(Found(db, h), Refs(h));
    assert Found(db, h) == Refs(h) <==> Refs(h) <= db.seats.Keys;
  }

  lemma TakenExactly(db: Db, h: Hold, now: Time)
    requires SeatsAreThere(db, h) && forall k :: !IsHoldFor(db, k, h.user, h.key)
    ensures HoldTx(db, h, now) == Abort(SeatMismatch) <==> !AllTakeable(db, h, now)
    ensures HoldTx(db, h, now) == Abort(DuplicateKey) <==> AllTakeable(db, h, now) && h.id in db.holds
    ensures HoldTx(db, h, now).Commit? <==> AllTakeable(db, h, now) && h.id !in db.holds
  {
    var hit := Matching(db.seats, Refs(h), s => Takeable(s, now));
    SubsetSize(hit, Refs(h));
    assert hit == Refs(h) <==> AllTakeable(db, h, now);
    assert (forall k :: k in db.holds ==> !(db.holds[k].user == h.user && db.holds[k].key == h.key)) by {
      assert forall k :: k in db.holds ==> !IsHoldFor(db, k, h.user, h.key);
    }
  }

  lemma TakenLeaves(db: Db, h: Hold, now: Time, db': Db)
    requires HoldTx(db, h, now) == Commit(db')
    ensures HoldIsTaken(db, db', h)
  {
    HoldTxEffect(db, h, now, db');
  }

  // The booking has the names that were drawn for it.
  predicate IsNamed(b: Booking, call: Call, io: Calls)
    requires call.Confirm?
  {
    && b.id == io.Nth(5).id && b.number == io.Nth(5).number
    && b.hold == call.hold && b.user == call.user && b.key == call.key
  }

  // The hold as it was loaded: stored under its own id, the caller's, and without a booking.
  ghost predicate IsLoaded(db: Db, call: Call, h: Hold)
    requires call.Confirm?
  {
    && h.id == call.hold && h.id in db.holds && db.holds[h.id] == h && h.user == call.user
    && KeyUnspent(db, call) && HoldUnbooked(db, call)
  }

  ghost predicate CanBook(db: Db, call: Call, h: Hold, draft: Booking, io: Calls)
    requires call.Confirm?
  {
    && IsLoaded(db, call, h) && h.status.Active? && SeatsAreThere(db, h)
    && IsNamed(draft, call, io) && FromHold(h, draft)
  }

  // What becomes of the transaction.
  ghost predicate TransactOutcome(db: Db, h: Hold, call: Call, io: Calls, error: Option<TxError>)
    requires call.Confirm?
  {
    var n := LastAttempt(io, 8);
    if !io.Nth(n + 1).reachable then error == Some(StoreFailure)
    else if !Sellable(db, h, call.user, io.Nth(n).time) then error.Some? && AfterAbort(error.value).HoldExpired?
    else if !NamesAreFree(db, call, io) then error.Some? && AfterAbort(error.value).BookingConfirmationFailed?
    else error.None?
  }

  lemma SoldExactly(db: Db, h: Hold, call: Call, io: Calls, b: Booking, at: Time)
    requires call.Confirm? && IsNamed(b, call, io) && SeatsAreThere(db, h)
    requires h.id == call.hold && h.user == call.user && h.status.Active? && h.id in db.holds && db.holds[h.id] == h
    ensures var tx := ConfirmTx(db, h, call.user, b, io.Nth(5).event, at);
            && (tx.Abort? && AfterAbort(tx.error).HoldExpired? <==> !Sellable(db, h, call.user, at))
            && (tx.Commit? <==> Sellable(db, h, call.user, at) && NamesAreFree(db, call, io))
  {
    var hit := Matching(db.seats, Refs(h), s => Confirmable(s, h.id, call.user, at));
    SubsetSize(hit, Refs(h));
    assert hit == Refs(h) <==>
             forall r :: r in Refs(h) ==> r in db.seats && Confirmable(db.seats[r], h.id, call.user, at);
    assert BookingIndexFree(db, b) && io.Nth(5).event !in db.outbox <==> NamesAreFree(db, call, io);
  }

  lemma SoldLeaves(db: Db, h: Hold, call: Call, io: Calls, b: Booking, at: Time, db': Db)
    requires call.Confirm? && h.id in db.holds && db.holds[h.id] == h && FromHold(h, b)
    requires at == io.Nth(LastAttempt(io, 8)).time
    requires ConfirmTx(db, h, call.user, b, io.Nth(5).event, at) == Commit(db')
    ensures HoldIsSold(db, db', h, b, io)
  {
    ConfirmTxEffect(db, h, call.user, b, io.Nth(5).event, at, db');
  }

  class BookingService {
    const ttl: Time
    const redis: Redis
    const store: Store

    constructor (ttl: Time, redis: Redis, store: Store)
      ensures this.ttl == ttl && this.redis == redis && this.store == store
    {
      this.ttl := ttl;
      this.redis := redis;
      this.store := store;
    }

    // -------------------------------------------------------------- queries

    // Unique indexes make the document a query finds the only one.

    method FindHoldFor(user: Id, key: Id) returns (found: Option<Hold>)
      requires IndexesOk(store.Contents())
      ensures found == FindHold(store.Contents(), user, key)
      ensures found.None? <==> forall k :: !IsHoldFor(store.Contents(), k, user, key)
      ensures found.Some? ==> exists k :: IsHoldFor(store.Contents(), k, user, key) && found.value == store.holds[k]
    {
      if k :| k in store.holds && store.holds[k].user == user && store.holds[k].key == key {
        StoredHoldIsFound(store.Contents(), user, key, k);
        return Some(store.holds[k]);
      }
      return None;
    }

    method FindBookingByKey(user: Id, key: Id) returns (found: Option<Booking>)
      requires IndexesOk(store.Contents())
      ensures found == FindBookingFor(store.Contents(), user, key)
      ensures found.None? <==> forall k :: !IsBookingFor(store.Contents(), k, user, key)
      ensures found.Some? ==>
        exists k :: IsBookingFor(store.Contents(), k, user, key) && found.value == store.bookings[k]
    {
      if k :| k in store.bookings && store.bookings[k].user == user && store.bookings[k].key == key {
        BookingForKeyIsFound(store.Contents(), user, key, k);
        return Some(store.bookings[k]);
      }
      return None;
    }

    method FindBookingByHold(user: Id, hold: Id) returns (found: Option<Booking>)
      requires IndexesOk(store.Contents())
      ensures found == FindBookingOf(store.Contents(), user, hold)
      ensures found.None? <==> forall k :: !IsBookingOf(store.Contents(), k, user, hold)
      ensures found.Some? ==>
        exists k :: IsBookingOf(store.Contents(), k, user, hold) && found.value == store.bookings[k]
    {
      if k :| k in store.bookings && store.bookings[k].user == user && store.bookings[k].hold == hold {
        BookingOfHoldIsFound(store.Contents(), user, hold, k);
        return Some(store.bookings[k]);
      }
      return None;
    }

    // The seats of a hold, in whatever order the database lists them.
    method ReadSeats(h: Hold) returns (order: seq<SeatRef>)
      ensures Enumerates(order, Found(store.Contents(), h))
    {
      order := [];
      var rest := set r | r in Refs(h) && r in store.seats;
      while rest != {}
        invariant rest !! (set r | r in order)
        invariant rest + (set r | r in order) == Found(store.Contents(), h)
        invariant forall i, j :: 0 <= i < j < |order| ==> order[i] != order[j]
      {
        var r :| r in rest;
        order, rest := order + [r], rest - {r};
      }
      assert forall r :: r in order <==> r in (set q | q in order);
    }

    // The earliest due holds first, `limit` of them unless that is 0.
    method FindDue(now: Time, limit: nat) returns (due: seq<Hold>)
      requires IdsOk(store.Contents())
      ensures IsDueQuery(store.Contents(), now, limit, due)
    {
      due := [];
      var rest := set k | k in store.holds && Due(store.holds[k], now);
      while rest != {} && (limit == 0 || |due| < limit)
        invariant Earliest(store.holds, now, due, rest)
        invariant limit > 0 ==> |due| <= limit
      {
        EarliestExists(store.holds, rest);
        var k :| k in rest && forall j :: j in rest ==> store.holds[k].expiresAt <= store.holds[j].expiresAt;
        TakeEarliest(store.holds, now, due, rest, k);
        due, rest := due + [store.holds[k]], rest - {k};
      }
    }

    // -------------------------------------------------------------- CreateHold

    ghost predicate Ran(t: Trail, call: Call, db: Db, end: Pc)
      reads store
    {
      Reaches(t, Setting(ttl, call, db), Point(store.Contents(), end))
    }

    method CreateHold(call: Call, io: Calls) returns (answer: Answer, ghost t: Trail)
      requires call.CreateHold? && 0 < ttl && IndexesOk(store.Contents())
      modifies redis`data, store
      ensures Ran(t, call, old(store.Contents()), Done(answer))
      ensures CreateOutcome(old(store.Contents()), old(redis.data), redis.now, ttl, call, io, answer)
      ensures IsFresh(answer) ==>
        && answer.HoldMade? && HoldIsTaken(old(store.Contents()), store.Contents(), answer.hold)
        && HoldTx(old(store.Contents()), answer.hold, io.Nth(1).time) == Commit(store.Contents())
        && AllFree(old(redis.data), KeysOf(answer.hold), redis.now)
        && redis.data == Acquired(old(redis.data), KeysOf(answer.hold), OwnerOf(answer.hold), redis.now, ttl)
      ensures !IsFresh(answer) ==> store.Contents() == old(store.Contents())
      ensures !IsFresh(answer) && !io.Nth(5).redis.Down? ==>
        Live(redis.data, redis.now) == Live(old(redis.data), redis.now)
    {
      ghost var db, g := store.Contents(), Setting(ttl, call, store.Contents());
      t := SetOut(g);
      t := FromCLookup(t, g, db, io.Nth(0));
      if !FewSeats(call.seats) {
        return Rejected(InvalidSeats), t;
      }
      if !io.Nth(0).reachable {
        return Rejected(Internal), t;
      }
      var existing := FindHoldFor(call.user, call.key);
      if existing.Some? {
        return Recognised(call, existing.value), t;
      }
      var now := io.Nth(1).time;
      t := FromCClock(t, g, db, io.Nth(1));
      var h := NewHold(call, now, ttl, io.Nth(2).id, io.Nth(2).token);
      t := FromCPrepare(t, g, db, io.Nth(2), now);
      if !io.Nth(2).reachable {
        return Rejected(Internal), t;
      }
      if !io.Nth(2).showtimeOpen {
        return Rejected(ShowtimeUnavailable), t;
      }
      var count := |set r | r in Refs(h) && r in store.seats|;
      CountedSeats(db, h);
      if count != |call.seats| {
        return Rejected(InvalidSeats), t;
      }
      answer, t := Reserve(call, h, now, io, db, t);
    }

    // From the Redis lock on.
    method Reserve(call: Call, h: Hold, now: Time, io: Calls, ghost db: Db, ghost past: Trail)
      returns (answer: Answer, ghost t: Trail)
      requires call.CreateHold? && 0 < ttl && IndexesOk(db) && store.Contents() == db
      requires h == Wanted(call, ttl, io) && now == io.Nth(1).time && SeatsAreThere(db, h) && KeyIsNew(db, call)
      requires Ran(past, call, db, CAcquire(h, now))
      modifies redis`data, store
      ensures Ran(t, call, db, Done(answer))
      ensures
        if io.Nth(3).redis.Down? then answer == Rejected(LockServiceUnavailable)
        else if !AllFree(old(redis.data), KeysOf(h), redis.now) then answer == Rejected(SeatUnavailable)
        else ReserveOutcome(db, h, io, answer)
      ensures IsFresh(answer) ==>
        && answer == HoldMade(h, false) && HoldIsTaken(db, store.Contents(), h)
        && HoldTx(db, h, now) == Commit(store.Contents())
        && AllFree(old(redis.data), KeysOf(h), redis.now)
        && redis.data == Acquired(old(redis.data), KeysOf(h), OwnerOf(h), redis.now, ttl)
      ensures !IsFresh(answer) ==> store.Contents() == db
      ensures !IsFresh(answer) && !io.Nth(5).redis.Down? ==>
        Live(redis.data, redis.now) == Live(old(redis.data), redis.now)
    {
      ghost var g := Setting(ttl, call, db);
      if io.Nth(3).redis.Down? {
        t := FromCAcquire(past, g, db, io.Nth(3), h, now);
        return Rejected(LockServiceUnavailable), t;
      }
      var reply := redis.Acquire(KeysOf(h), OwnerOf(h), ttl);
      t := FromCAcquire(past, g, db, io.Nth(3).(redis := Said(reply)), h, now);
      if reply.Refused? {
        return Rejected(SeatUnavailable), t;
      }
      ReleaseUndoesAcquire(old(redis.data), KeysOf(h), OwnerOf(h), redis.now, ttl);
      answer, t := Persist(call, h, now, io, db, t);
    }

    // The transaction.
    method Persist(call: Call, h: Hold, now: Time, io: Calls, ghost db: Db, ghost past: Trail)
      returns (answer: Answer, ghost t: Trail)
      requires call.CreateHold? && IndexesOk(db) && store.Contents() == db
      requires h == Wanted(call, ttl, io) && now == io.Nth(1).time && SeatsAreThere(db, h) && KeyIsNew(db, call)
      requires Ran(past, call, db, CInsert(h, now))
      modifies redis`data, store
      ensures Ran(t, call, db, Done(answer))
      ensures ReserveOutcome(db, h, io, answer)
      ensures IsFresh(answer) ==>
        && answer == HoldMade(h, false) && redis.data == old(redis.data)
        && HoldIsTaken(db, store.Contents(), h) && HoldTx(db, h, now) == Commit(store.Contents())
      ensures !IsFresh(answer) ==>
        store.Contents() == db && redis.data == Unlocked(old(redis.data), h, redis.now, io.Nth(5).redis.Down?)
    {
      ghost var g := Setting(ttl, call, db);
      var error := Some(StoreFailure);
      if io.Nth(4).reachable {
        error := store.CreateHold(h, now);
      }
      t := FromCInsert(past, g, db, io.Nth(4), h, now);
      TakenExactly(db, h, now);
      if error.None? {
        TakenLeaves(db, h, now, store.Contents());
        return HoldMade(h, false), t;
      }
      answer, t := Abandon(call, h, error.value, io, db, t);
    }

    // The compensating release, and the search for the hold that won.
    method Abandon(call: Call, h: Hold, error: TxError, io: Calls, ghost db: Db, ghost past: Trail)
      returns (answer: Answer, ghost t: Trail)
      requires call.CreateHold? && IndexesOk(db) && store.Contents() == db
      requires Ran(past, call, db, CUndo(h, error)) && KeyIsNew(db, call)
      modifies redis`data
      ensures Ran(t, call, db, Done(answer))
      ensures answer == Rejected(if error.SeatMismatch? then SeatUnavailable else HoldCreationFailed)
      ensures redis.data == Unlocked(old(redis.data), h, redis.now, io.Nth(5).redis.Down?)
    {
      ghost var g := Setting(ttl, call, db);
      if !io.Nth(5).redis.Down? {
        var _ := redis.Release(KeysOf(h), OwnerOf(h));
      }
      t := FromCUndo(past, g, db, io.Nth(5), h, error);
      if error.DuplicateKey? {
        t := FromCRecover(t, g, db, io.Nth(6));
        if io.Nth(6).reachable {
          var existing := FindHoldFor(call.user, call.key);
          if existing.Some? {
            return Recognised(call, existing.value), t;
          }
        }
      } else if error.SeatMismatch? {
        return Rejected(SeatUnavailable), t;
      }
      return Rejected(HoldCreationFailed), t;
    }

    // -------------------------------------------------------------- ReleaseHold

    method ReleaseHold(call: Call, io: Calls) returns (answer: Answer, ghost t: Trail)
      requires call.ReleaseHold?
      modifies redis`data, store
      ensures Ran(t, call, old(store.Contents()), Done(answer))
      ensures IdsOk(old(store.Contents())) ==>
        && ReleaseOutcome(old(store.Contents()), call, io, answer)
        && (Releases(old(store.Contents()), call, io) ==>
              var h := old(store.holds)[call.hold];
              && HoldIsFreed(old(store.Contents()), store.Contents(), h, Released)
              && store.audits == old(store.audits) + multiset{SeatReleased(h.id, Manual)}
              && (!io.Nth(2).redis.Down? ==> NoKeyOf(redis.data, h, redis.now)))
        && (!Releases(old(store.Contents()), call, io) ==>
              store.Contents() == old(store.Contents()) && redis.data == old(redis.data))
      ensures
        || (store.Contents() == old(store.Contents()) && redis.data == old(redis.data))
        || (call.hold in old(store.holds) && answer.HoldGivenUp?
            && ReleaseTx(old(store.Contents()), old(store.holds)[call.hold], call.user) == Commit(store.Contents())
            && redis.data == Unlocked(old(redis.data), old(store.holds)[call.hold], redis.now, io.Nth(2).redis.Down?))
    {
      ghost var db, g := store.Contents(), Setting(ttl, call, store.Contents());
      t := SetOut(g);
      t := FromRLoad(t, g, db, io.Nth(0));
      if !io.Nth(0).reachable {
        return Rejected(Internal), t;
      }
      if call.hold !in store.holds {
        return Rejected(HoldNotFound), t;
      }
      var h := store.holds[call.hold];
      if h.user != call.user {
        return Rejected(Forbidden), t;
      }
      if !h.status.Active? {
        return HoldGivenUp(h), t;
      }
      var error := Some(StoreFailure);
      if io.Nth(1).reachable {
        error := store.Release(h, call.user);
      }
      t := FromRCommit(t, g, db, io.Nth(1), h);
      if error.Some? {
        t := FromRReload(t, g, db, io.Nth(2), h);
        if io.Nth(2).reachable && h.id in store.holds && !store.holds[h.id].status.Active? {
          return HoldGivenUp(store.holds[h.id]), t;
        }
        return Rejected(Internal), t;
      }
      h := h.(status := Released);
      if !io.Nth(2).redis.Down? {
        var _ := redis.Release(KeysOf(h), OwnerOf(h));
      }
      t := FromRUnlock(t, g, store.Contents(), io.Nth(2), h);
      return HoldGivenUp(h), t;
    }

    // -------------------------------------------------------------- Confirm

    method Confirm(call: Call, io: Calls) returns (answer: Answer, ghost t: Trail)
      requires call.Confirm? && IndexesOk(store.Contents())
      modifies redis`data, store
      ensures Ran(t, call, old(store.Contents()), Done(answer))
      ensures IdsOk(old(store.Contents())) ==>
        ConfirmOutcome(old(store.Contents()), old(redis.data), redis.now, call, io, answer)
      ensures IdsOk(old(store.Contents())) && IsFresh(answer) ==>
        && call.hold in old(store.holds)
        && var h := old(store.holds)[call.hold];
           && HoldIsSold(old(store.Contents()), store.Contents(), h, answer.booking, io)
           && (!io.Nth(6).redis.Down? ==> NoKeyOf(redis.data, h, redis.now))
      ensures IsFresh(answer) ==>
        && answer.BookingMade? && call.hold in old(store.holds)
        && var h := old(store.holds)[call.hold];
           && CommitsAt(old(store.Contents()), h, call.user, answer.booking, io, store.Contents())
           && AllOwned(old(redis.data), KeysOf(h), OwnerOf(h), redis.now)
           && redis.data == Unlocked(old(redis.data), h, redis.now, io.Nth(6).redis.Down?)
      ensures !IsFresh(answer) ==> store.Contents() == old(store.Contents()) && redis.data == old(redis.data)
    {
      ghost var db, g := store.Contents(), Setting(ttl, call, store.Contents());
      t := SetOut(g);
      t := FromFByKey(t, g, db, io.Nth(0));
      if !io.Nth(0).reachable {
        return Rejected(Internal), t;
      }
      var existing := FindBookingByKey(call.user, call.key);
      if existing.Some? {
        return if existing.value.hold != call.hold then Rejected(KeyReused) else BookingMade(existing.value, true), t;
      }
      t := FromFByHold(t, g, db, io.Nth(1));
      if !io.Nth(1).reachable {
        return Rejected(Internal), t;
      }
      existing := FindBookingByHold(call.user, call.hold);
      if existing.Some? {
        return BookingMade(existing.value, true), t;
      }
      t := FromFLoad(t, g, db, io.Nth(2));
      if !io.Nth(2).reachable {
        return Rejected(Internal), t;
      }
      if call.hold !in store.holds {
        return Rejected(HoldNotFound), t;
      }
      var h := store.holds[call.hold];
      if h.user != call.user {
        return Rejected(Forbidden), t;
      }
      answer, t := Purchase(call, h, io, db, t);
    }

    // From the first clock reading to the verification of the keys.
    method Purchase(call: Call, h: Hold, io: Calls, ghost db: Db, ghost past: Trail)
      returns (answer: Answer, ghost t: Trail)
      requires call.Confirm? && IndexesOk(db) && store.Contents() == db
      requires Ran(past, call, db, FClock(h))
      modifies redis`data, store
      ensures Ran(t, call, db, Done(answer))
      ensures IsLoaded(db, call, h) ==> PurchaseOutcome(db, old(redis.data), redis.now, h, call, io, answer)
      ensures IsLoaded(db, call, h) && IsFresh(answer) ==>
        && HoldIsSold(db, store.Contents(), h, answer.booking, io)
      ensures IsFresh(answer) ==>
        && answer.BookingMade?
        && CommitsAt(db, h, call.user, answer.booking, io, store.Contents())
        && AllOwned(old(redis.data), KeysOf(h), OwnerOf(h), redis.now)
        && redis.data == Unlocked(old(redis.data), h, redis.now, io.Nth(6).redis.Down?)
      ensures !IsFresh(answer) ==> store.Contents() == db && redis.data == old(redis.data)
    {
      ghost var g := Setting(ttl, call, db);
      t := FromFClock(past, g, db, io.Nth(3), h);
      if !h.status.Active? || !(io.Nth(3).time < h.expiresAt) {
        return Rejected(HoldExpired), t;
      }
      if io.Nth(4).redis.Down? {
        t := FromFVerify(t, g, db, io.Nth(4), h);
        return Rejected(LockServiceUnavailable), t;
      }
      var reply := redis.Verify(KeysOf(h), OwnerOf(h));
      t := FromFVerify(t, g, db, io.Nth(4).(redis := Said(reply)), h);
      if reply.Refused? {
        return Rejected(HoldExpired), t;
      }
      answer, t := Resolve(call, h, io, db, t);
    }

    // The seats, and the booking document.
    method Resolve(call: Call, h: Hold, io: Calls, ghost db: Db, ghost past: Trail)
      returns (answer: Answer, ghost t: Trail)
      requires call.Confirm? && IndexesOk(db) && store.Contents() == db
      requires Ran(past, call, db, FSeats(h))
      modifies redis`data, store
      ensures Ran(t, call, db, Done(answer))
      ensures IsLoaded(db, call, h) && h.status.Active? ==>
        if !io.Nth(5).reachable then answer == Rejected(Internal)
        else if !SeatsAreThere(db, h) then answer == Rejected(HoldInvalid)
        else BookOutcome(db, h, call, io, answer)
      ensures IsLoaded(db, call, h) && IsFresh(answer) ==>
        answer.BookingMade? && HoldIsSold(db, store.Contents(), h, answer.booking, io)
      ensures IsFresh(answer) ==>
        && answer.BookingMade?
        && CommitsAt(db, h, call.user, answer.booking, io, store.Contents())
        && redis.data == Unlocked(old(redis.data), h, redis.now, io.Nth(6).redis.Down?)
      ensures !IsFresh(answer) ==> store.Contents() == db && redis.data == old(redis.data)
    {
      ghost var g := Setting(ttl, call, db);
      t := past;
      if !io.Nth(5).reachable {
        t := FromFSeats(t, g, db, io.Nth(5), h);
        return Rejected(Internal), t;
      }
      var order := ReadSeats(h);
      EnumeratesSize(order, Found(db, h));
      CountedSeats(db, h);
      t := FromFSeats(t, g, db, io.Nth(5).(order := order), h);
      if |order| != |h.seats| {
        return Rejected(HoldInvalid), t;
      }
      var lines, total := BuildLines(store.seats, order);
      var draft := Booking(io.Nth(5).id, io.Nth(5).number, h.id, call.user, h.showtime, lines, total, call.key);
      SortKeepsAmount(LinesOf(store.seats, order));
      assert draft == Draft(db, call, h, order, io.Nth(5).id, io.Nth(5).number);
      if h.user == call.user {
        DraftOk(db, call, h, order, io.Nth(5).id, io.Nth(5).number);
      }
      answer, t := Book(call, h, draft, io, db, t);
    }

    // The transaction and what follows it.
    method Book(call: Call, h: Hold, draft: Booking, io: Calls, ghost db: Db, ghost past: Trail)
      returns (answer: Answer, ghost t: Trail)
      requires call.Confirm? && IndexesOk(db) && store.Contents() == db
      requires Ran(past, call, db, FTxClock(h, draft, io.Nth(5).event))
      modifies redis`data, store
      ensures Ran(t, call, db, Done(answer))
      ensures CanBook(db, call, h, draft, io) ==> BookOutcome(db, h, call, io, answer)
      ensures CanBook(db, call, h, draft, io) && IsFresh(answer) ==>
        HoldIsSold(db, store.Contents(), h, draft, io)
      ensures IsFresh(answer) ==>
        && answer == BookingMade(draft, false)
        && CommitsAt(db, h, call.user, draft, io, store.Contents())
        && redis.data == Unlocked(old(redis.data), h, redis.now, io.Nth(6).redis.Down?)
      ensures !IsFresh(answer) ==> store.Contents() == db && redis.data == old(redis.data)
    {
      var error;
      error, t := Transact(call, h, draft, io, db, past);
      if error.Some? {
        answer, t := Recover(call, h, error.value, io, db, t);
        return;
      }
      t := Unlock(call, h, draft, io, db, t);
      return BookingMade(draft, false), t;
    }

    method Unlock(call: Call, h: Hold, draft: Booking, io: Calls, ghost db: Db, ghost past: Trail)
      returns (ghost t: Trail)
      requires call.Confirm? && Ran(past, call, db, FUnlock(h, draft))
      modifies redis`data
      ensures Ran(t, call, db, Done(BookingMade(draft, false)))
      ensures redis.data == Unlocked(old(redis.data), h, redis.now, io.Nth(6).redis.Down?)
    {
      if !io.Nth(6).redis.Down? {
        var _ := redis.Release(KeysOf(h), OwnerOf(h));
      }
      t := FromFUnlock(past, Setting(ttl, call, db), store.Contents(), io.Nth(6), h, draft);
    }

    // As the driver runs the transaction: again from its clock reading on after a transient failure, for as
    // long as it has patience, which is to the end of the list.
    method Transact(call: Call, h: Hold, draft: Booking, io: Calls, ghost db: Db, ghost past: Trail)
      returns (error: Option<TxError>, ghost t: Trail)
      requires call.Confirm? && store.Contents() == db
      requires Ran(past, call, db, FTxClock(h, draft, io.Nth(5).event))
      modifies store
      ensures Ran(t, call, db, if error.None? then FUnlock(h, draft) else FReloadHold(h, error.value))
      ensures CanBook(db, call, h, draft, io) ==>
        && TransactOutcome(db, h, call, io, error)
        && (error.None? ==> HoldIsSold(db, store.Contents(), h, draft, io))
      ensures error.None? ==> CommitsAt(db, h, call.user, draft, io, store.Contents())
      ensures error.Some? ==> store.Contents() == db
    {
      ghost var g := Setting(ttl, call, db);
      var event, n := io.Nth(5).event, 8;
      var at := io.Nth(n).time;
      t := FromFTxClock(past, g, db, io.Nth(n), h, draft, event);
      while !io.Nth(n + 1).reachable && io.Nth(n + 1).retry && n + 2 < |io.first|
        invariant at == io.Nth(n).time && store.Contents() == db && LastAttempt(io, n) == LastAttempt(io, 8)
        invariant Ran(t, call, db, FCommit(h, draft, event, at))
        decreases |io.first| - n
      {
        t := FromFCommit(t, g, db, io.Nth(n + 1), h, draft, event, at);
        n := n + 2;
        at := io.Nth(n).time;
        t := FromFTxClock(t, g, db, io.Nth(n), h, draft, event);
      }
      error := Some(StoreFailure);
      if io.Nth(n + 1).reachable {
        error := store.Confirm(h, call.user, draft, event, at);
      }
      if CanBook(db, call, h, draft, io) {
        SoldExactly(db, h, call, io, draft, at);
        if error.None? {
          SoldLeaves(db, h, call, io, draft, at, store.Contents());
        }
      }
      t := FromFCommit(t, g, db, io.Nth(n + 1).(retry := false), h, draft, event, at);
    }

    // The search for the booking that won.
    method Recover(call: Call, h: Hold, error: TxError, io: Calls, ghost db: Db, ghost past: Trail)
      returns (answer: Answer, ghost t: Trail)
      requires call.Confirm? && IndexesOk(db) && store.Contents() == db
      requires Ran(past, call, db, FReloadHold(h, error))
      ensures Ran(t, call, db, Done(answer)) && !IsFresh(answer)
      ensures IsLoaded(db, call, h) ==> answer == Rejected(AfterAbort(error))
    {
      ghost var g := Setting(ttl, call, db);
      t := FromFReloadHold(past, g, db, io.Nth(6), h, error);
      if io.Nth(6).reachable {
        var existing := FindBookingByHold(call.user, h.id);
        if existing.Some? {
          return BookingMade(existing.value, true), t;
        }
      }
      answer, t := RecoverByKey(call, h, error, io, db, t);
    }

    method RecoverByKey(call: Call, h: Hold, error: TxError, io: Calls, ghost db: Db, ghost past: Trail)
      returns (answer: Answer, ghost t: Trail)
      requires call.Confirm? && IndexesOk(db) && store.Contents() == db
      requires Ran(past, call, db, FReloadKey(h, error))
      ensures Ran(t, call, db, Done(answer)) && !IsFresh(answer)
      ensures KeyUnspent(db, call) ==> answer == Rejected(AfterAbort(error))
    {
      t := FromFReloadKey(past, Setting(ttl, call, db), db, io.Nth(7), h, error);
      if io.Nth(7).reachable {
        var existing := FindBookingByKey(call.user, call.key);
        if existing.Some? && existing.value.hold != h.id {
          return Rejected(KeyReused), t;
        }
      }
      return Rejected(AfterAbort(error)), t;
    }

    // -------------------------------------------------------------- ExpireDueHolds

    method ExpireDueHolds(call: Call, io: Calls) returns (answer: Answer, ghost t: Trail)
      requires call.ExpireDueHolds? && IdsOk(store.Contents())
      modifies redis`data, store
      ensures Ran(t, call, old(store.Contents()), Done(answer))
      ensures answer.Swept? ==>
        && IsDueQuery(old(store.Contents()), io.Nth(0).time, call.limit, answer.sweep.due)
        && SweptTo(old(store.Contents()), store.Contents(), answer.sweep, |answer.sweep.due|)
        && SweepCounts(answer.sweep, io, |answer.sweep.due|)
        && KeysAreGone(redis.data, answer.sweep.due, io, |answer.sweep.due|, redis.now)
        && SparesOthers(old(redis.data), redis.data, answer.sweep.due, redis.now)
      ensures answer.Swept? <==> io.Nth(1).reachable
      ensures !answer.Swept? ==> redis.data == old(redis.data) && store.Contents() == old(store.Contents())
    {
      ghost var db, g := store.Contents(), Setting(ttl, call, store.Contents());
      t := SetOut(g);
      var now := io.Nth(0).time;
      t := FromSClock(t, g, db, io.Nth(0));
      if !io.Nth(1).reachable {
        t := FromSFetch(t, g, db, io.Nth(1), now);
        return Rejected(Internal), t;
      }
      var due := FindDue(now, call.limit);
      var w := Sweep(now, due, 0, {}, {}, 0);
      t := FromSFetch(t, g, db, io.Nth(1).(due := due), now);
      w, t := WorkOff(call, w, io, db, t);
      t := FromSItem(t, g, store.Contents(), io.Nth(2), w);
      return Swept(w), t;
    }

    // The loop over the list.
    method WorkOff(call: Call, start: Sweep, io: Calls, ghost db: Db, ghost past: Trail)
      returns (w: Sweep, ghost t: Trail)
      requires call.ExpireDueHolds? && IsDueQuery(db, start.now, call.limit, start.due) && store.Contents() == db
      requires start == Sweep(start.now, start.due, 0, {}, {}, 0) && Ran(past, call, db, SItem(start))
      modifies redis`data, store
      ensures w.now == start.now && w.due == start.due && w.next == |w.due|
      ensures Ran(t, call, db, SItem(w))
      ensures SweepState(db, store.Contents(), redis.data, w, io, redis.now)
      ensures SparesOthers(old(redis.data), redis.data, w.due, redis.now)
    {
      w, t := start, past;
      NothingSweptYet(db, w);
      while w.next < |w.due|
        invariant w.now == start.now && w.due == start.due && w.next <= |w.due|
        invariant Ran(t, call, db, SItem(w))
        invariant SweepState(db, store.Contents(), redis.data, w, io, redis.now)
        invariant SparesOthers(old(redis.data), redis.data, w.due, redis.now)
        decreases |w.due| - w.next
      {
        ghost var data := redis.data;
        w, t := ExpireNext(call, w, io, db, t);
        SparesOn(old(redis.data), data, redis.data, w.due, redis.now);
      }
    }

    method ExpireNext(call: Call, v: Sweep, io: Calls, ghost db: Db, ghost past: Trail)
      returns (w: Sweep, ghost t: Trail)
      requires call.ExpireDueHolds? && v.next < |v.due| && IsDueQuery(db, v.now, call.limit, v.due)
      requires SweepState(db, store.Contents(), redis.data, v, io, redis.now) && Ran(past, call, db, SItem(v))
      modifies redis`data, store
      ensures w.now == v.now && w.due == v.due && w.next == v.next + 1
      ensures Ran(t, call, db, SItem(w))
      ensures SweepState(db, store.Contents(), redis.data, w, io, redis.now)
      ensures SparesOthers(old(redis.data), redis.data, w.due, redis.now)
    {
      ghost var before := store.Contents();
      NextIsListed(db, call.limit, v);
      NextIsClaimable(db, before, v);
      w, t := ExpireOne(call, v, io, db, past);
      SweepStep(db, before, store.Contents(), old(redis.data), redis.data, v, w, io, redis.now);
    }

    method ExpireOne(call: Call, w: Sweep, io: Calls, ghost db: Db, ghost past: Trail)
      returns (w': Sweep, ghost t: Trail)
      requires call.ExpireDueHolds? && w.next < |w.due| && w.due[w.next].id !in w.failed
      requires Ran(past, call, db, SItem(w))
      modifies redis`data, store
      ensures w' == Failed(w) || w' == Skipped(w) || w' == Counted(w)
      ensures Claimable(old(store.Contents()), w.due[w.next], w.now) ==>
        && w' == ItemResult(w, io) && redis.data == ItemKeys(old(redis.data), w, io, redis.now)
      ensures store.Contents() ==
        if w' == Failed(w) then old(store.Contents()) else ExpireTx(old(store.Contents()), w.due[w.next], w.now)
      ensures Ran(t, call, db, SItem(w'))
      ensures redis.data == old(redis.data) || redis.data == Unlocked(old(redis.data), w.due[w.next], redis.now, false)
    {
      ghost var g := Setting(ttl, call, db);
      var h, n := w.due[w.next], 3 * w.next + 2;
      t := FromSItem(past, g, store.Contents(), io.Nth(n), w);
      if !io.Nth(n).reachable {
        return Failed(w), t;
      }
      var claimed := store.ExpireOne(h, w.now);
      if !claimed {
        return Skipped(w), t;
      }
      t := FromSCheck(t, g, store.Contents(), io.Nth(n + 1), w);
      if !io.Nth(n + 1).reachable || h.id !in store.holds || !store.holds[h.id].status.Expired? {
        return Skipped(w), t;
      }
      if !io.Nth(n + 2).redis.Down? {
        var _ := redis.Release(KeysOf(h), OwnerOf(h));
      }
      t := FromSUnlock(t, g, store.Contents(), io.Nth(n + 2), w);
      return Counted(w), t;
    }
  }

  // The three calls that a sweep makes for the i-th hold of its list: the transaction, the query after it,
  // and the release of the keys.

  predicate GetsThrough(io: Calls, i: nat) {
    io.Nth(3 * i + 2).reachable
  }

  predicate IsSeenExpired(io: Calls, i: nat) {
    GetsThrough(io, i) && io.Nth(3 * i + 3).reachable
  }

  predicate LosesKeys(io: Calls, i: nat) {
    IsSeenExpired(io, i) && !io.Nth(3 * i + 4).redis.Down?
  }

  // What becomes of a due hold, and of its keys.
  function ItemResult(w: Sweep, io: Calls): Sweep
    requires w.next < |w.due|
  {
    if !GetsThrough(io, w.next) then Failed(w) else if !IsSeenExpired(io, w.next) then Skipped(w) else Counted(w)
  }

  function ItemKeys(data: Keyspace, w: Sweep, io: Calls, now: Time): Keyspace
    requires w.next < |w.due|
  {
    if LosesKeys(io, w.next) then Freed(data, KeysOf(w.due[w.next]), OwnerOf(w.due[w.next]), now) else data
  }

  function ThoseFailed(due: seq<Hold>, io: Calls, n: nat): set<Id>
    requires n <= |due|
  {
    set i | 0 <= i < n && !GetsThrough(io, i) :: due[i].id
  }

  function ThoseCounted(due: seq<Hold>, io: Calls, n: nat): set<Id>
    requires n <= |due|
  {
    set i | 0 <= i < n && IsSeenExpired(io, i) :: due[i].id
  }

  // Of the first n holds exactly those have failed whose transaction did not get through, and exactly those
  // are counted whose transaction and query did.
  ghost predicate SweepCounts(w: Sweep, io: Calls, n: nat)
    requires n <= |w.due|
  {
    w.failed == ThoseFailed(w.due, io, n) && w.counted == ThoseCounted(w.due, io, n)
  }

  // None of the keys of those is left, if Redis was up for them.
  ghost predicate KeysAreGone(data: Keyspace, due: seq<Hold>, io: Calls, n: nat, now: Time)
    requires n <= |due|
  {
    forall i :: 0 <= i < n && LosesKeys(io, i) ==> NoKeyOf(data, due[i], now)
  }

  lemma NextIsClaimable(db: Db, before: Db, v: Sweep)
    requires IsNextItem(db, v) && SweptTo(db, before, v, v.next)
    ensures Claimable(before, v.due[v.next], v.now)
  {
  }

  lemma CountsNext(v: Sweep, w: Sweep, io: Calls)
    requires v.next < |v.due| && SweepCounts(v, io, v.next) && w == ItemResult(v, io)
    ensures SweepCounts(w, io, w.next)
  {
    var n, k := v.next, v.due[v.next].id;
    assert ThoseFailed(v.due, io, n + 1) == ThoseFailed(v.due, io, n) + if GetsThrough(io, n) then {} else {k};
    assert ThoseCounted(v.due, io, n + 1) == ThoseCounted(v.due, io, n) + if IsSeenExpired(io, n) then {k} else {};
  }

  lemma KeysGoNext(data: Keyspace, data': Keyspace, v: Sweep, io: Calls, now: Time)
    requires v.next < |v.due| && KeysAreGone(data, v.due, io, v.next, now) && data' == ItemKeys(data, v, io, now)
    ensures KeysAreGone(data', v.due, io, v.next + 1, now) && SparesOthers(data, data', v.due, now)
  {
    UnlockedSpares(data, v.due, v.next, now);
    ReleaseIsOwnershipSafe(data, KeysOf(v.due[v.next]), OwnerOf(v.due[v.next]), now);
  }

  // What a sweep has done so far.
  ghost predicate SweepState(db: Db, db': Db, data: Keyspace, w: Sweep, io: Calls, now: Time) {
    w.next <= |w.due| && SweptTo(db, db', w, w.next) && SweepCounts(w, io, w.next)
    && KeysAreGone(data, w.due, io, w.next, now)
  }

  lemma SweepStep(
    db: Db, before: Db, after: Db, data: Keyspace, data': Keyspace, v: Sweep, w: Sweep, io: Calls, now: Time)
    requires IsNextItem(db, v) && SweepState(db, before, data, v, io, now)
    requires w == ItemResult(v, io) && data' == ItemKeys(data, v, io, now)
    requires after == if w == Failed(v) then before else ExpireTx(before, v.due[v.next], v.now)
    ensures SweepState(db, after, data', w, io, now) && SparesOthers(data, data', v.due, now)
  {
    assert SweptTo(db, after, w, w.next) by { ItemSwept(db, before, after, v, w); }
    assert SweepCounts(w, io, w.next) by { CountsNext(v, w, io); }
    KeysGoNext(data, data', v, io, now);
  }

  // With every call getting through, a sweep counts all that it has fetched.
  lemma AllAreCounted(db: Db, db': Db, w: Sweep, io: Calls)
    requires SweptTo(db, db', w, |w.due|) && SweepCounts(w, io, |w.due|)
    requires forall i, j :: 0 <= i < j < |w.due| ==> w.due[i].id != w.due[j].id
    requires forall i :: 0 <= i < |w.due| && GetsThrough(io, i) ==> IsSeenExpired(io, i)
    ensures w.counted == Ids(w.due) - w.failed
    ensures w.processed == |w.due| - |w.failed|
  {
    assert w.due[..|w.due|] == w.due;
    forall k | k in Ids(w.due) - w.failed ensures k in w.counted {
      var i :| 0 <= i < |w.due| && w.due[i].id == k;
    }
    IdsSize(w.due);
    PartsSize(Ids(w.due), w.counted, w.failed);
  }

  lemma PartsSize(all: set<Id>, a: set<Id>, b: set<Id>)
    requires a == all - b && b <= all
    ensures |a| == |all| - |b|
  {
    assert all == a + b;
  }

  // What a sweep that nobody interferes with has done to the first n holds of its list: those whose
  // transaction did not fail are EXPIRED, and the seats they had are free. No other hold, no other seat, no
  // booking and no outbox event has changed, and the counter counts holds that have expired.
  ghost predicate SweptTo(db: Db, db': Db, w: Sweep, n: nat)
    requires n <= |w.due|
  {
    var ended := Ids(w.due[..n]) - w.failed;
    && db'.holds == ExpiredAmong(db.holds, ended)
    && db'.seats == FreedAmong(db.seats, w.due[..n], w.failed)
    && db'.bookings == db.bookings && db'.outbox == db.outbox
    && w.counted <= ended && w.processed == |w.counted|
    && w.failed <= Ids(w.due[..n])
  }

  function ExpiredAmong(holds: map<Id, Hold>, ended: set<Id>): map<Id, Hold> {
    map k | k in holds :: if k in ended then holds[k].(status := HoldStatus.Expired) else holds[k]
  }

  ghost predicate FreedBy(s: Seat, r: SeatRef, due: seq<Hold>, failed: set<Id>) {
    exists i :: 0 <= i < |due| && due[i].id !in failed && r in Refs(due[i]) && HeldBy(s, due[i].id)
  }

  ghost function FreedAmong(seats: map<SeatRef, Seat>, due: seq<Hold>, failed: set<Id>): map<SeatRef, Seat> {
    map r | r in seats :: if FreedBy(seats[r], r, due, failed) then FreeSeat(seats[r]) else seats[r]
  }

  lemma IdsNext(due: seq<Hold>, n: nat)
    requires n < |due| && forall i, j :: 0 <= i < j < |due| ==> due[i].id != due[j].id
    ensures Ids(due[..n + 1]) == Ids(due[..n]) + {due[n].id} && due[n].id !in Ids(due[..n])
  {
    assert due[..n + 1] == due[..n] + [due[n]];
  }

  lemma FreedNext(s: Seat, r: SeatRef, due: seq<Hold>, n: nat, failed: set<Id>)
    requires n < |due| && due[n].id !in Ids(due[..n])
    ensures FreedBy(s, r, due[..n + 1], failed) <==>
              FreedBy(s, r, due[..n], failed) || (due[n].id !in failed && r in Refs(due[n]) && HeldBy(s, due[n].id))
    ensures FreedBy(s, r, due[..n + 1], failed + {due[n].id}) <==> FreedBy(s, r, due[..n], failed)
    ensures FreedBy(s, r, due[..n], failed) ==> !HeldBy(s, due[n].id)
  {
    assert due[..n + 1] == due[..n] + [due[n]];
    forall i | 0 <= i < n ensures due[..n + 1][i] == due[..n][i] && due[..n][i].id in Ids(due[..n]) {
    }
    if due[n].id !in failed && r in Refs(due[n]) && HeldBy(s, due[n].id) {
      assert due[..n + 1][n] == due[n];
    }
  }

  // The next hold of the list, as the query found it.
  ghost predicate IsNextItem(db: Db, v: Sweep) {
    && v.next < |v.due|
    && var h := v.due[v.next];
       && h.id in db.holds && db.holds[h.id] == h && Due(h, v.now)
       && h.id !in Ids(v.due[..v.next]) && Ids(v.due[..v.next + 1]) == Ids(v.due[..v.next]) + {h.id}
  }

  lemma NextIsListed(db: Db, limit: nat, v: Sweep)
    requires IsDueQuery(db, v.now, limit, v.due) && v.next < |v.due|
    ensures IsNextItem(db, v)
  {
    IdsNext(v.due, v.next);
  }

  lemma ItemSwept(db: Db, before: Db, after: Db, v: Sweep, w: Sweep)
    requires IsNextItem(db, v) && SweptTo(db, before, v, v.next)
    requires w == Failed(v) || w == Skipped(v) || w == Counted(v)
    requires after == if w == Failed(v) then before else ExpireTx(before, v.due[v.next], v.now)
    ensures SweptTo(db, after, w, w.next)
  {
    var listed, k := Ids(v.due[..v.next]), v.due[v.next].id;
    assert Claimable(before, v.due[v.next], v.now);
    assert after.seats == FreedAmong(db.seats, w.due[..w.next], w.failed) by {
      SeatsSwept(db.seats, before.seats, after.seats, v, w);
    }
    assert after.holds == ExpiredAmong(db.holds, listed + {k} - w.failed) by {
      HoldsSwept(db.holds, before.holds, after.holds, listed, v, w);
    }
    assert w.counted <= listed + {k} - w.failed && w.processed == |w.counted| by {
      CountersSwept(listed, v, w);
    }
  }

  lemma CountersSwept(listed: set<Id>, v: Sweep, w: Sweep)
    requires v.next < |v.due| && v.due[v.next].id !in listed && v.counted <= listed - v.failed && v.failed <= listed
    requires v.processed == |v.counted| && (w == Failed(v) || w == Skipped(v) || w == Counted(v))
    ensures w.counted <= listed + {v.due[v.next].id} - w.failed && w.processed == |w.counted|
    ensures w.failed <= listed + {v.due[v.next].id}
  {
  }

  lemma HoldsSwept(
    holds: map<Id, Hold>, before: map<Id, Hold>, after: map<Id, Hold>, listed: set<Id>, v: Sweep, w: Sweep)
    requires v.next < |v.due| && v.due[v.next].id !in listed && v.failed <= listed && v.due[v.next].id in before
    requires before == ExpiredAmong(holds, listed - v.failed)
    requires w == Failed(v) || w == Skipped(v) || w == Counted(v)
    requires var k := v.due[v.next].id;
             after == if w == Failed(v) then before else before[k := before[k].(status := HoldStatus.Expired)]
    ensures after == ExpiredAmong(holds, listed + {v.due[v.next].id} - w.failed)
  {
  }

  lemma SeatsSwept(
    seats: map<SeatRef, Seat>, before: map<SeatRef, Seat>, after: map<SeatRef, Seat>, v: Sweep, w: Sweep)
    requires v.next < |v.due| && v.due[v.next].id !in Ids(v.due[..v.next]) && v.due[v.next].id !in v.failed
    requires before == FreedAmong(seats, v.due[..v.next], v.failed)
    requires w == Failed(v) || w == Skipped(v) || w == Counted(v)
    requires after == if w == Failed(v) then before else FreeHeld(before, v.due[v.next])
    ensures after == FreedAmong(seats, w.due[..w.next], w.failed)
  {
    FreeHeldEffect(before, v.due[v.next]);
    forall r | r in seats
      ensures after[r] == if FreedBy(seats[r], r, w.due[..w.next], w.failed) then FreeSeat(seats[r]) else seats[r]
    {
      FreedNext(seats[r], r, v.due, v.next, v.failed);
    }
  }

  // Keys of owners other than the listed holds are as they were.
  ghost predicate SparesOthers(data: Keyspace, data': Keyspace, due: seq<Hold>, now: Time) {
    forall k, o: Owner :: (forall i :: 0 <= i < |due| ==> OwnerOf(due[i]) != o) ==>
      (Owns(data', k, o, now) <==> Owns(data, k, o, now))
  }

  // The due holds picked so far, and the rest of them, which expire no earlier.
  ghost predicate Earliest(holds: map<Id, Hold>, now: Time, due: seq<Hold>, rest: set<Id>) {
    && (forall k :: k in rest ==> k in holds && Due(holds[k], now))
    && (forall i :: 0 <= i < |due| ==>
          due[i].id in holds && holds[due[i].id] == due[i] && Due(due[i], now) && due[i].id !in rest)
    && (forall i, j :: 0 <= i < j < |due| ==> due[i].id != due[j].id && due[i].expiresAt <= due[j].expiresAt)
    && (forall i, k :: 0 <= i < |due| && k in rest ==> due[i].expiresAt <= holds[k].expiresAt)
    && (forall k :: k in holds && Due(holds[k], now) && k !in rest ==> holds[k] in due)
  }

  lemma TakeEarliest(holds: map<Id, Hold>, now: Time, due: seq<Hold>, rest: set<Id>, k: Id)
    requires Earliest(holds, now, due, rest) && k in rest && holds[k].id == k
    requires forall j :: j in rest ==> holds[k].expiresAt <= holds[j].expiresAt
    ensures Earliest(holds, now, due + [holds[k]], rest - {k})
  {
    var more := due + [holds[k]];
    forall j | j in holds && Due(holds[j], now) && j !in rest - {k} ensures holds[j] in more {
      assert j == k ==> more[|due|] == holds[j];
    }
  }

  lemma UnlockedSpares(data: Keyspace, due: seq<Hold>, n: nat, now: Time)
    requires n < |due|
    ensures SparesOthers(data, data, due, now)
    ensures SparesOthers(data, Unlocked(data, due[n], now, false), due, now)
  {
    ReleaseIsOwnershipSafe(data, KeysOf(due[n]), OwnerOf(due[n]), now);
  }

  lemma SparesOn(a: Keyspace, b: Keyspace, c: Keyspace, due: seq<Hold>, now: Time)
    requires SparesOthers(a, b, due, now) && SparesOthers(b, c, due, now)
    ensures SparesOthers(a, c, due, now)
  {
  }

  lemma NothingSweptYet(db: Db, w: Sweep)
    requires w.next == 0 && w.failed == {} && w.counted == {} && w.processed == 0
    ensures forall data, io, now :: SweepState(db, db, data, w, io, now)
  {
  }

  lemma {:induction false} EarliestExists(holds: map<Id, Hold>, ids: set<Id>)
    requires ids != {} && ids <= holds.Keys
    ensures exists k :: k in ids && forall j :: j in ids ==> holds[k].expiresAt <= holds[j].expiresAt
  {
    var k :| k in ids;
    if ids - {k} != {} {
      EarliestExists(holds, ids - {k});
      var e :| e in ids - {k} && forall j :: j in ids - {k} ==> holds[e].expiresAt <= holds[j].expiresAt;
      var least := if holds[e].expiresAt <= holds[k].expiresAt then e else k;
      assert forall j :: j in ids ==> j == k || j in ids - {k};
      assert least in ids && forall j :: j in ids ==> holds[least].expiresAt <= holds[j].expiresAt;
    } else {
      assert ids == {k};
    }
  }
}
