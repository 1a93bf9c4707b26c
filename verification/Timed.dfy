// The same requests with real Redis scripts and one shared clock that never goes back.
//
// A world adds the clock, the Redis keyspace, and who drew which hold id. A request still uses the
// clock reading it took earlier, so its times may be stale. A Redis call may fail, before or after
// the script has run; the keyspace itself is never lost.
module Timed {
  import opened Domain
  import opened Database
  import opened StoreInvariant
  import opened RedisLock
  import opened Protocol
  import opened ProtocolInvariant
  import opened Ledger
  import opened Runs

  datatype World = World(core: State, clock: Time, redis: Keyspace, issued: map<Id, nat>)

  datatype Turn = Tick | Act(l: Label)

  // ---------------------------------------------------------------- the environment

  ghost predicate AcquireAnswers(w: World, h: Hold, a: RedisAnswer, redis': Keyspace) {
    var free := AllFree(w.redis, KeysOf(h), w.clock);
    var done := Acquired(w.redis, KeysOf(h), OwnerOf(h), w.clock, w.core.ttl);
    match a
    case Yes => free && redis' == done
    case No => !free && redis' == w.redis
    case Down => redis' == w.redis || redis' == done
  }

  ghost predicate VerifyAnswers(w: World, h: Hold, a: RedisAnswer, redis': Keyspace) {
    && redis' == w.redis
    && (a.Yes? ==> AllOwned(w.redis, KeysOf(h), OwnerOf(h), w.clock))
    && (a.No? ==> !AllOwned(w.redis, KeysOf(h), OwnerOf(h), w.clock))
  }

  ghost predicate ReleaseAnswers(w: World, h: Hold, a: RedisAnswer, redis': Keyspace) {
    || redis' == Freed(w.redis, KeysOf(h), OwnerOf(h), w.clock)
    || (a.Down? && redis' == w.redis)
  }

  // The hold whose keys the request releases next.
  function Unlocking(pc: Pc): Option<Hold> {
    match pc
    case CUndo(h, _) => Some(h)
    case RUnlock(h) => Some(h)
    case FUnlock(h, _) => Some(h)
    case SUnlock(w) => if w.next < |w.due| then Some(w.due[w.next]) else None
    case _ => None
  }

  predicate ReadsClock(pc: Pc) {
    pc.CClock? || pc.FClock? || pc.FTxClock? || pc.SClock?
  }

  ghost predicate Honest(w: World, pid: nat, pc: Pc, input: Input, w': World) {
    && (ReadsClock(pc) ==> input.time == w.clock)
    && (if pc.CPrepare? then input.id !in w.issued && w'.issued == w.issued[input.id := pid]
        else w'.issued == w.issued)
    && (if pc.CAcquire? then AcquireAnswers(w, pc.hold, input.redis, w'.redis)
        else if pc.FVerify? then VerifyAnswers(w, pc.hold, input.redis, w'.redis)
        else if Unlocking(pc).Some? then ReleaseAnswers(w, Unlocking(pc).value, input.redis, w'.redis)
        else w'.redis == w.redis)
  }

  ghost predicate WorldStep(w: World, t: Turn, w': World) {
    match t
    case Tick => w.clock <= w'.clock && w' == w.(clock := w'.clock)
    case Act(l) =>
      && Step(w.core, l, w'.core) && w'.clock == w.clock
      && (if l.Move? then Honest(w, l.pid, w.core.procs[l.pid].pc, l.input, w')
          else w'.redis == w.redis && w'.issued == w.issued)
  }

  ghost predicate WorldInit(w: World) {
    Init(w.core) && w.redis == map[] && w.issued == map[]
  }

  // ---------------------------------------------------------------- the invariant

  function Preparing(pc: Pc): Option<Hold> {
    match pc
    case CAcquire(h, _) => Some(h)
    case CInsert(h, _) => Some(h)
    case CUndo(h, _) => Some(h)
    case _ => None
  }

  // Every key of the hold carries its ownership, for as long as the hold may last.
  ghost predicate KeysHeld(redis: Keyspace, h: Hold) {
    forall r :: r in Refs(h) ==> r in redis && redis[r].owner == OwnerOf(h) && h.expiresAt <= redis[r].deadline
  }

  ghost predicate LeavesNoKey(redis: Keyspace, id: Id) {
    forall r :: r in redis ==> redis[r].owner.hold != id
  }

  ghost predicate KeysWithin(redis: Keyspace, h: Hold) {
    forall r :: r in redis && redis[r].owner.hold == h.id ==> r in Refs(h) && redis[r].owner == OwnerOf(h)
  }

  // What a request's own times say: readings of the past, and an expiry counted from one of them.
  predicate TimesOk(pc: Pc, clock: Time, ttl: Time) {
    match pc
    case CPrepare(now) => now <= clock
    case CAcquire(h, now) => now <= clock && h.expiresAt == now + ttl
    case CInsert(h, now) => now <= clock && h.expiresAt == now + ttl
    case FCommit(_, _, _, at) => at <= clock
    case _ => true
  }

  ghost predicate OwnHoldOk(w: World, pid: nat, pc: Pc) {
    && (Preparing(pc).Some? ==>
          var h := Preparing(pc).value;
          h.id in w.issued && w.issued[h.id] == pid && h.id !in w.core.db.holds)
    && (pc.CAcquire? ==> LeavesNoKey(w.redis, pc.hold.id))
    && (pc.CInsert? ==> KeysWithin(w.redis, pc.hold) && (w.clock < pc.hold.expiresAt ==> KeysHeld(w.redis, pc.hold)))
    && (pc.CUndo? ==> KeysWithin(w.redis, pc.hold))
  }

  ghost predicate ProcsTimed(w: World) {
    forall p :: p in w.core.procs ==>
      TimesOk(w.core.procs[p].pc, w.clock, w.core.ttl) && OwnHoldOk(w, p, w.core.procs[p].pc)
  }

  predicate IsLiveHold(w: World, k: Id) {
    k in w.core.db.holds && w.core.db.holds[k].status.Active? && w.clock < w.core.db.holds[k].expiresAt
  }

  ghost predicate OwnsSeats(db: Db, h: Hold) {
    forall r :: r in Refs(h) ==> r in db.seats && HeldBy(db.seats[r], h.id)
  }

  ghost predicate LiveHoldsOwnSeats(w: World) {
    forall k :: IsLiveHold(w, k) ==> OwnsSeats(w.core.db, w.core.db.holds[k])
  }

  ghost predicate LiveHoldsOwnKeys(w: World) {
    forall k :: IsLiveHold(w, k) ==> KeysHeld(w.redis, w.core.db.holds[k])
  }

  ghost predicate IssuedOk(w: World) {
    && (forall k :: k in w.core.db.holds ==> k in w.issued)
    && (forall r :: r in w.redis ==> w.redis[r].owner.hold in w.issued)
  }

  ghost predicate DeadlinesOk(w: World) {
    forall r :: r in w.redis ==> w.redis[r].deadline <= w.clock + w.core.ttl
  }

  ghost predicate WorldInv(w: World) {
    && Inv(w.core)
    && ProcsTimed(w) && LiveHoldsOwnSeats(w) && LiveHoldsOwnKeys(w) && IssuedOk(w) && DeadlinesOk(w)
  }

  // ---------------------------------------------------------------- Redis steps and other holds

  // What one request does to the keyspace, on behalf of one hold.
  ghost predicate RedisMove(data: Keyspace, data': Keyspace, h: Hold, now: Time, ttl: Time) {
    || data' == data
    || data' == Acquired(data, KeysOf(h), OwnerOf(h), now, ttl)
    || data' == Freed(data, KeysOf(h), OwnerOf(h), now)
  }

  lemma RedisMoveSparesOthers(data: Keyspace, data': Keyspace, mover: Hold, now: Time, ttl: Time, h: Hold)
    requires RedisMove(data, data', mover, now, ttl) && mover.id != h.id
    ensures now < h.expiresAt && KeysHeld(data, h) ==> KeysHeld(data', h)
    ensures KeysWithin(data, h) ==> KeysWithin(data', h)
    ensures LeavesNoKey(data, h.id) ==> LeavesNoKey(data', h.id)
  {
  }

  lemma AcquireHoldsKeys(data: Keyspace, h: Hold, now: Time, ttl: Time)
    requires AllFree(data, KeysOf(h), now) && LeavesNoKey(data, h.id) && h.expiresAt <= now + ttl
    ensures KeysHeld(Acquired(data, KeysOf(h), OwnerOf(h), now, ttl), h)
    ensures KeysWithin(Acquired(data, KeysOf(h), OwnerOf(h), now, ttl), h)
  {
  }

  // The hold on whose behalf a request touches Redis next.
  function Mover(pc: Pc): Option<Hold> {
    if pc.CAcquire? then Some(pc.hold) else Unlocking(pc)
  }

  lemma HonestRedis(w: World, pid: nat, pc: Pc, input: Input, w': World)
    requires Honest(w, pid, pc, input, w')
    ensures Mover(pc).None? ==> w'.redis == w.redis
    ensures Mover(pc).Some? ==> RedisMove(w.redis, w'.redis, Mover(pc).value, w.clock, w.core.ttl)
  {
  }

  // A request that releases keys does so for a hold that is not stored, or not ACTIVE.
  lemma MoverIsNotLive(w: World, pid: nat)
    requires pid in w.core.procs && Mover(w.core.procs[pid].pc).Some?
    requires PcOk(w.core.db, w.core.procs[pid].call, w.core.procs[pid].pc) && OwnHoldOk(w, pid, w.core.procs[pid].pc)
    ensures var k := Mover(w.core.procs[pid].pc).value.id;
            && (k in w.core.db.holds ==> !w.core.db.holds[k].status.Active?)
            && (k !in w.core.db.holds ==> k in w.issued && w.issued[k] == pid)
  {
  }

  // ---------------------------------------------------------------- preservation

  lemma WorldInitInv(w: World)
    requires WorldInit(w)
    ensures WorldInv(w)
  {
    InitInv(w.core);
  }

  lemma TickKeeps(w: World, w': World)
    requires WorldInv(w) && WorldStep(w, Tick, w')
    ensures WorldInv(w')
  {
  }

  // Holds are stored by CInsert only.
  lemma StoredKeys(ttl: Time, db: Db, call: Call, pc: Pc, input: Input)
    requires PcOk(db, call, pc) && !pc.Done? && ValidInput(db, call, pc, input)
    ensures var db' := Advance(ttl, db, call, pc, input).0;
            db'.holds.Keys == db.holds.Keys || (pc.CInsert? && HoldTx(db, pc.hold, pc.now) == Commit(db'))
  {
    match call
    case CreateHold(_, _, _, _) =>
    case ReleaseHold(_, _) =>
    case Confirm(_, _, _) =>
      if pc.FCommit? {
        BookNext(db, call, pc.hold, pc.draft, pc.event, pc.at, input);
      }
    case ExpireDueHolds(_) =>
  }

  lemma OnlyNewHold(db: Db, h: Hold, now: Time, db': Db, k: Id)
    requires HoldTx(db, h, now) == Commit(db') && k in db'.holds && k !in db.holds
    ensures k == h.id
  {
    HoldTxEffect(db, h, now, db');
  }

  lemma NewHoldIsInserted(w: World, pid: nat, input: Input, w': World, k: Id)
    requires ProcsOk(w.core.db, w.core.procs) && Step(w.core, Move(pid, input), w'.core)
    requires k in w'.core.db.holds && k !in w.core.db.holds
    ensures w.core.procs[pid].pc.CInsert? && w.core.procs[pid].pc.hold.id == k
    ensures HoldTx(w.core.db, w.core.procs[pid].pc.hold, w.core.procs[pid].pc.now) == Commit(w'.core.db)
  {
    var p := w.core.procs[pid];
    assert PcOk(w.core.db, p.call, p.pc);
    StoredKeys(w.core.ttl, w.core.db, p.call, p.pc, input);
    assert k in w'.core.db.holds.Keys;
    OnlyNewHold(w.core.db, p.pc.hold, p.pc.now, w'.core.db, k);
  }

  lemma OthersStayTimed(w: World, pid: nat, input: Input, w': World, q: nat)
    requires ProcsOk(w.core.db, w.core.procs) && ProcsTimed(w) && WorldStep(w, Act(Move(pid, input)), w')
    requires q in w.core.procs && q != pid
    ensures TimesOk(w'.core.procs[q].pc, w'.clock, w'.core.ttl) && OwnHoldOk(w', q, w'.core.procs[q].pc)
  {
    var pc := w.core.procs[q].pc;
    var moving := w.core.procs[pid];
    assert w'.core.procs[q] == w.core.procs[q] && OwnHoldOk(w, q, pc);
    assert OwnHoldOk(w, pid, moving.pc) && PcOk(w.core.db, moving.call, moving.pc);
    HonestRedis(w, pid, moving.pc, input, w');
    if Preparing(pc).Some? {
      var h := Preparing(pc).value;
      if h.id in w'.core.db.holds {
        NewHoldIsInserted(w, pid, input, w', h.id);
      }
      if Mover(moving.pc).Some? {
        MoverIsNotLive(w, pid);
        RedisMoveSparesOthers(w.redis, w'.redis, Mover(moving.pc).value, w.clock, w.core.ttl, h);
      }
    }
  }

  lemma CreateStaysTimed(w: World, pid: nat, input: Input, w': World)
    requires ProcsTimed(w) && IssuedOk(w) && WorldStep(w, Act(Move(pid, input)), w')
    requires w.core.procs[pid].call.CreateHold? && CreateOk(w.core.db, w.core.procs[pid].call, w.core.procs[pid].pc)
    ensures TimesOk(w'.core.procs[pid].pc, w'.clock, w'.core.ttl) && OwnHoldOk(w', pid, w'.core.procs[pid].pc)
  {
    var pc := w.core.procs[pid].pc;
    assert TimesOk(pc, w.clock, w.core.ttl) && OwnHoldOk(w, pid, pc);
    if pc.CAcquire? && input.redis.Yes? {
      AcquireHoldsKeys(w.redis, pc.hold, w.clock, w.core.ttl);
    }
  }

  // Requests of the other kinds prepare nothing, and take their times from the clock.
  lemma ReleaseTimes(db: Db, call: Call, pc: Pc, input: Input)
    requires call.ReleaseHold? && ReleaseOk(db, call, pc)
    ensures var next := AdvanceRelease(db, call, pc, input).1;
            Preparing(next).None? && !next.CPrepare? && !next.FCommit?
  {
  }

  lemma ConfirmTimes(db: Db, call: Call, pc: Pc, input: Input)
    requires call.Confirm? && ConfirmOk(db, call, pc) && ValidInput(db, call, pc, input) && !pc.Done?
    ensures var next := AdvanceConfirm(db, call, pc, input).1;
            Preparing(next).None? && !next.CPrepare? && (next.FCommit? ==> pc.FTxClock? && next.at == input.time)
  {
  }

  lemma SweepTimes(db: Db, call: Call, pc: Pc, input: Input)
    requires call.ExpireDueHolds? && ExpireOk(db, call, pc)
    ensures var next := AdvanceSweep(db, call, pc, input).1; Preparing(next).None? && !next.CPrepare? && !next.FCommit?
  {
  }

  lemma NonCreateStaysTimed(w: World, pid: nat, input: Input, w': World)
    requires WorldStep(w, Act(Move(pid, input)), w') && !w.core.procs[pid].call.CreateHold?
    requires PcOk(w.core.db, w.core.procs[pid].call, w.core.procs[pid].pc)
    ensures TimesOk(w'.core.procs[pid].pc, w'.clock, w'.core.ttl) && OwnHoldOk(w', pid, w'.core.procs[pid].pc)
  {
    var p := w.core.procs[pid];
    match p.call
    case ReleaseHold(_, _) => ReleaseTimes(w.core.db, p.call, p.pc, input);
    case Confirm(_, _, _) => ConfirmTimes(w.core.db, p.call, p.pc, input);
    case ExpireDueHolds(_) => SweepTimes(w.core.db, p.call, p.pc, input);
  }

  lemma MoveKeepsProcsTimed(w: World, pid: nat, input: Input, w': World)
    requires ProcsOk(w.core.db, w.core.procs) && ProcsTimed(w) && IssuedOk(w) && WorldStep(w, Act(Move(pid, input)), w')
    ensures ProcsTimed(w')
  {
    assert PcOk(w.core.db, w.core.procs[pid].call, w.core.procs[pid].pc);
    if w.core.procs[pid].call.CreateHold? {
      CreateStaysTimed(w, pid, input, w');
    } else {
      NonCreateStaysTimed(w, pid, input, w');
    }
    forall q | q in w'.core.procs && q != pid
      ensures TimesOk(w'.core.procs[q].pc, w'.clock, w'.core.ttl) && OwnHoldOk(w', q, w'.core.procs[q].pc)
    {
      OthersStayTimed(w, pid, input, w', q);
    }
  }

  lemma MoveKeepsKeys(w: World, pid: nat, input: Input, w': World)
    requires ProcsOk(w.core.db, w.core.procs) && IdsOk(w.core.db) && Evolves(w.core.db, w'.core.db)
    requires ProcsTimed(w) && LiveHoldsOwnKeys(w) && WorldStep(w, Act(Move(pid, input)), w')
    ensures LiveHoldsOwnKeys(w')
  {
    assert OwnHoldOk(w, pid, w.core.procs[pid].pc);
    forall k | IsLiveHold(w', k) ensures KeysHeld(w'.redis, w'.core.db.holds[k]) {
      if k in w.core.db.holds {
        LiveKeysStay(w, pid, input, w', k);
      } else {
        NewHoldIsInserted(w, pid, input, w', k);
      }
    }
  }

  lemma LiveKeysStay(w: World, pid: nat, input: Input, w': World, k: Id)
    requires ProcsOk(w.core.db, w.core.procs) && IdsOk(w.core.db) && Evolves(w.core.db, w'.core.db)
    requires ProcsTimed(w) && LiveHoldsOwnKeys(w) && WorldStep(w, Act(Move(pid, input)), w')
    requires IsLiveHold(w', k) && k in w.core.db.holds
    ensures KeysHeld(w'.redis, w'.core.db.holds[k])
  {
    var pc := w.core.procs[pid].pc;
    assert OwnHoldOk(w, pid, pc) && PcOk(w.core.db, w.core.procs[pid].call, pc);
    HonestRedis(w, pid, pc, input, w');
    assert IsLiveHold(w, k) && SameCore(w.core.db.holds[k], w'.core.db.holds[k]);
    if Mover(pc).Some? {
      MoverIsNotLive(w, pid);
      RedisMoveSparesOthers(w.redis, w'.redis, Mover(pc).value, w.clock, w.core.ttl, w.core.db.holds[k]);
    }
  }

  lemma MoveKeepsIssued(w: World, pid: nat, input: Input, w': World)
    requires ProcsOk(w.core.db, w.core.procs) && ProcsTimed(w) && IssuedOk(w) && WorldStep(w, Act(Move(pid, input)), w')
    ensures IssuedOk(w')
  {
    var pc := w.core.procs[pid].pc;
    assert OwnHoldOk(w, pid, pc);
    HonestRedis(w, pid, pc, input, w');
    forall k | k in w'.core.db.holds ensures k in w'.issued {
      if k !in w.core.db.holds {
        NewHoldIsInserted(w, pid, input, w', k);
      }
    }
  }

  // A held seat keeps its hold while the hold is live: nobody's clock reading is late enough to take it.
  lemma LiveSeatStays(w: World, l: Label, w': World, k: Id, r: SeatRef)
    requires Inv(w.core) && Inv(w'.core) && ProcsTimed(w) && WorldStep(w, Act(l), w')
    requires Evolves(w.core.db, w'.core.db)
    requires IsLiveHold(w, k) && IsLiveHold(w', k) && r in w.core.db.seats && HeldBy(w.core.db.seats[r], k)
    ensures r in w'.core.db.seats && HeldBy(w'.core.db.seats[r], k)
  {
    assert SeatOk(w.core.db, r);
    assert SeatOk(w'.core.db, r);
    RefinesLedger(w.core, l, w'.core);
    if EntryOf(w.core, l).Some? && EntryOf(w.core, l).value.Take? {
      TakesWithPastTime(w, l, w');
    }
    HeldSeatStays(w.core.db, w'.core.db, EntryOf(w.core, l), w.clock, k, r);
  }

  lemma HeldSeatStays(a: Db, b: Db, entry: Option<Ledger.Entry>, clock: Time, k: Id, r: SeatRef)
    requires Refines(a, b, entry) && r in a.seats && r in b.seats && SeatOk(a, r) && SeatOk(b, r)
    requires HeldBy(a.seats[r], k) && clock < a.holds[k].expiresAt && HasStatus(b, k, Active)
    requires entry.Some? && entry.value.Take? ==> entry.value.now <= clock
    ensures HeldBy(b.seats[r], k)
  {
    var l, l' := Abstract(a), Abstract(b);
    assert l.places[r] == Held(k, a.holds[k].expiresAt);
    assert k !in l'.ended;
    if entry.Some? {
      HeldPlaceStays(l, entry.value, r);
    }
    assert l'.places[r] == PlaceOf(b.seats[r]);
  }

  lemma TakesWithPastTime(w: World, l: Label, w': World)
    requires ProcsTimed(w) && WorldStep(w, Act(l), w') && EntryOf(w.core, l).Some? && EntryOf(w.core, l).value.Take?
    ensures EntryOf(w.core, l).value.now <= w.clock
  {
    assert TimesOk(w.core.procs[l.pid].pc, w.clock, w.core.ttl);
  }

  lemma NewHoldOwnsSeats(w: World, pid: nat, input: Input, w': World, k: Id)
    requires ProcsOk(w.core.db, w.core.procs) && WorldStep(w, Act(Move(pid, input)), w')
    requires k in w'.core.db.holds && k !in w.core.db.holds
    ensures OwnsSeats(w'.core.db, w'.core.db.holds[k])
  {
    NewHoldIsInserted(w, pid, input, w', k);
    HoldTxEffect(w.core.db, w.core.procs[pid].pc.hold, w.core.procs[pid].pc.now, w'.core.db);
  }

  lemma MoveKeepsSeats(w: World, pid: nat, input: Input, w': World)
    requires Inv(w.core) && Inv(w'.core) && IdsOk(w.core.db) && ProcsTimed(w) && LiveHoldsOwnSeats(w)
    requires WorldStep(w, Act(Move(pid, input)), w') && Evolves(w.core.db, w'.core.db)
    ensures LiveHoldsOwnSeats(w')
  {
    forall k | IsLiveHold(w', k) ensures OwnsSeats(w'.core.db, w'.core.db.holds[k]) {
      if k in w.core.db.holds {
        LiveHoldStays(w, Move(pid, input), w', k);
      } else {
        NewHoldOwnsSeats(w, pid, input, w', k);
      }
    }
  }

  lemma LiveHoldStays(w: World, l: Label, w': World, k: Id)
    requires Inv(w.core) && Inv(w'.core) && IdsOk(w.core.db) && ProcsTimed(w) && LiveHoldsOwnSeats(w)
    requires WorldStep(w, Act(l), w') && Evolves(w.core.db, w'.core.db)
    requires IsLiveHold(w', k) && k in w.core.db.holds
    ensures OwnsSeats(w'.core.db, w'.core.db.holds[k])
  {
    var h := w.core.db.holds[k];
    assert SameCore(h, w'.core.db.holds[k]);
    assert IsLiveHold(w, k);
    forall r | r in Refs(h) ensures r in w'.core.db.seats && HeldBy(w'.core.db.seats[r], k) {
      LiveSeatStays(w, l, w', k, r);
    }
  }

  lemma MoveKeepsDeadlines(w: World, pid: nat, input: Input, w': World)
    requires DeadlinesOk(w) && WorldStep(w, Act(Move(pid, input)), w')
    ensures DeadlinesOk(w')
  {
    HonestRedis(w, pid, w.core.procs[pid].pc, input, w');
  }

  lemma MoveKeeps(w: World, pid: nat, input: Input, w': World)
    requires WorldInv(w) && WorldStep(w, Act(Move(pid, input)), w')
    ensures WorldInv(w')
  {
    StepKeepsInv(w.core, Move(pid, input), w'.core);
    MoveKeepsDeadlines(w, pid, input, w');
    MoveKeepsProcsTimed(w, pid, input, w');
    InvIds(w.core.db);
    MoveKeepsSeats(w, pid, input, w');
    MoveKeepsKeys(w, pid, input, w');
    MoveKeepsIssued(w, pid, input, w');
  }

  lemma BeginKeeps(w: World, pid: nat, call: Call, w': World)
    requires WorldInv(w) && WorldStep(w, Act(Begin(pid, call)), w')
    ensures WorldInv(w')
  {
    StepKeepsInv(w.core, Begin(pid, call), w'.core);
    forall q | q in w'.core.procs
      ensures TimesOk(w'.core.procs[q].pc, w'.clock, w'.core.ttl) && OwnHoldOk(w', q, w'.core.procs[q].pc)
    {
      if q != pid {
        assert OwnHoldOk(w, q, w.core.procs[q].pc);
      }
    }
  }

  lemma DeliverKeeps(w: World, w': World)
    requires WorldInv(w) && WorldStep(w, Act(Deliver), w')
    ensures WorldInv(w')
  {
    StepKeepsInv(w.core, Deliver, w'.core);
    DeliverKeepsTimed(w, w');
  }

  lemma DeliverKeepsTimed(w: World, w': World)
    requires WorldStep(w, Act(Deliver), w')
    requires ProcsTimed(w) && LiveHoldsOwnSeats(w) && LiveHoldsOwnKeys(w) && IssuedOk(w) && DeadlinesOk(w)
    ensures ProcsTimed(w') && LiveHoldsOwnSeats(w') && LiveHoldsOwnKeys(w') && IssuedOk(w') && DeadlinesOk(w')
  {
    assert w'.core.db.holds == w.core.db.holds && w'.core.db.seats == w.core.db.seats;
    forall q | q in w'.core.procs
      ensures TimesOk(w'.core.procs[q].pc, w'.clock, w'.core.ttl) && OwnHoldOk(w', q, w'.core.procs[q].pc)
    {
      assert OwnHoldOk(w, q, w.core.procs[q].pc);
    }
    forall k | IsLiveHold(w', k)
      ensures OwnsSeats(w'.core.db, w'.core.db.holds[k]) && KeysHeld(w'.redis, w'.core.db.holds[k])
    {
      assert IsLiveHold(w, k);
    }
  }

  lemma WorldStepKeepsInv(w: World, t: Turn, w': World)
    requires WorldInv(w) && WorldStep(w, t, w')
    ensures WorldInv(w')
  {
    match t
    case Tick => TickKeeps(w, w');
    case Act(Begin(pid, call)) => BeginKeeps(w, pid, call, w');
    case Act(Move(pid, input)) => MoveKeeps(w, pid, input, w');
    case Act(Deliver) => DeliverKeeps(w, w');
  }
}
