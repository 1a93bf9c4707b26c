// What one shared clock and working scripts add, over whole runs.
module TimedRuns {
  import opened Domain
  import opened Database
  import opened StoreInvariant
  import opened RedisLock
  import opened Protocol
  import opened ProtocolInvariant
  import opened Timed

  datatype TimedRun = TimedRun(worlds: seq<World>, turns: seq<Turn>)

  ghost predicate IsTimedRun(r: TimedRun) {
    && |r.worlds| == |r.turns| + 1
    && WorldInit(r.worlds[0])
    && forall i {:trigger r.turns[i]} :: 0 <= i < |r.turns| ==> WorldStep(r.worlds[i], r.turns[i], r.worlds[i + 1])
  }

  lemma {:induction false} TimedRunInv(r: TimedRun, i: nat)
    requires IsTimedRun(r) && i < |r.worlds|
    ensures WorldInv(r.worlds[i])
  {
    if i == 0 {
      WorldInitInv(r.worlds[0]);
    } else {
      TimedRunInv(r, i - 1);
      WorldStepKeepsInv(r.worlds[i - 1], r.turns[i - 1], r.worlds[i]);
    }
  }

  lemma ProcsOkInRun(r: TimedRun, i: nat)
    requires IsTimedRun(r) && i < |r.worlds|
    ensures ProcsOk(r.worlds[i].core.db, r.worlds[i].core.procs)
  {
    TimedRunInv(r, i);
  }

  lemma DeadlinesInRun(r: TimedRun, i: nat)
    requires IsTimedRun(r) && i < |r.worlds|
    ensures DeadlinesOk(r.worlds[i])
  {
    TimedRunInv(r, i);
  }

  lemma PcOkInRun(r: TimedRun, i: nat, p: nat)
    requires IsTimedRun(r) && i < |r.worlds| && p in r.worlds[i].core.procs
    ensures var s := r.worlds[i].core; PcOk(s.db, s.procs[p].call, s.procs[p].pc)
    ensures TimesOk(r.worlds[i].core.procs[p].pc, r.worlds[i].clock, r.worlds[i].core.ttl)
    ensures OwnHoldOk(r.worlds[i], p, r.worlds[i].core.procs[p].pc)
  {
    TimedRunInv(r, i);
  }

  lemma DbInvInRun(r: TimedRun, i: nat)
    requires IsTimedRun(r) && i < |r.worlds|
    ensures DbInv(r.worlds[i].core.db) && IdsOk(r.worlds[i].core.db)
  {
    TimedRunInv(r, i);
    InvIds(r.worlds[i].core.db);
  }

  lemma BookingsOkInRun(r: TimedRun, i: nat)
    requires IsTimedRun(r) && i < |r.worlds|
    ensures BookingsOk(r.worlds[i].core.db)
  {
    DbInvInRun(r, i);
  }

  lemma LiveHoldInRun(r: TimedRun, i: nat, k: Id)
    requires IsTimedRun(r) && i < |r.worlds| && IsLiveHold(r.worlds[i], k)
    ensures OwnsSeats(r.worlds[i].core.db, r.worlds[i].core.db.holds[k])
    ensures KeysHeld(r.worlds[i].redis, r.worlds[i].core.db.holds[k])
    ensures r.worlds[i].core.db.holds[k].id == k
  {
    TimedRunInv(r, i);
    InvIds(r.worlds[i].core.db);
  }

  ghost predicate At(w: World, pid: nat, pc: Pc) {
    pid in w.core.procs && w.core.procs[pid].pc == pc
  }

  // ---------------------------------------------------------------- a live hold owns its seats

  // Every seat of an ACTIVE hold that has not expired is locked for it, with its user and expiry.
  lemma LiveHoldOwnsItsSeats(r: TimedRun, i: nat, k: Id, ref: SeatRef)
    requires IsTimedRun(r) && i < |r.worlds| && IsLiveHold(r.worlds[i], k)
    requires ref in Refs(r.worlds[i].core.db.holds[k])
    ensures var db := r.worlds[i].core.db;
            && ref in db.seats && db.seats[ref].status.Locked? && db.seats[ref].holdId == Some(k)
            && db.seats[ref].lockedBy == Some(db.holds[k].user)
            && db.seats[ref].lockExpiresAt == Some(db.holds[k].expiresAt)
  {
    var db := r.worlds[i].core.db;
    LiveHoldInRun(r, i, k);
    DbInvInRun(r, i);
    assert SeatOk(db, ref);
  }

  // When the hold matches but its seats fall short, exactly then some seat is no longer held for it ...
  lemma MismatchMeansSeatLost(db: Db, h: Hold, b: Booking, event: Id, at: Time)
    requires DbInv(db) && Known(db, h)
    ensures Refs(h) <= db.seats.Keys
    ensures ConfirmTx(db, h, h.user, b, event, at) == Abort(SeatMismatch) <==>
              HoldConfirmable(db, h, h.user, at) && exists ref :: ref in Refs(h) && !HeldBy(db.seats[ref], h.id)
  {
    var hit := Matching(db.seats, Refs(h), s => Confirmable(s, h.id, h.user, at));
    assert HoldOk(db, h.id) && Refs(h) == Refs(db.holds[h.id]);
    SubsetSize(hit, Refs(h));
    if HoldConfirmable(db, h, h.user, at) {
      forall ref | ref in Refs(h) ensures ref in hit <==> HeldBy(db.seats[ref], h.id) {
        assert SeatOk(db, ref);
      }
      if hit != Refs(h) {
        assert hit < Refs(h);
        var ref :| ref in Refs(h) && ref !in hit;
        assert !HeldBy(db.seats[ref], h.id);
      }
    }
  }

  lemma MismatchInRun(r: TimedRun, i: nat, h: Hold, b: Booking, event: Id, at: Time)
    requires IsTimedRun(r) && i < |r.worlds| && Known(r.worlds[i].core.db, h)
    ensures Refs(h) <= r.worlds[i].core.db.seats.Keys
    ensures var db := r.worlds[i].core.db;
            ConfirmTx(db, h, h.user, b, event, at) == Abort(SeatMismatch) <==>
              HoldConfirmable(db, h, h.user, at) && exists ref :: ref in Refs(h) && !HeldBy(db.seats[ref], h.id)
  {
    DbInvInRun(r, i);
    MismatchMeansSeatLost(r.worlds[i].core.db, h, b, event, at);
  }

  // ... and that takes the clock to have reached the hold's expiry.
  lemma MismatchMeansTooLate(r: TimedRun, i: nat, pid: nat, h: Hold, draft: Booking, event: Id, at: Time)
    requires IsTimedRun(r) && i < |r.worlds| && At(r.worlds[i], pid, FCommit(h, draft, event, at))
    requires ConfirmTx(r.worlds[i].core.db, h, h.user, draft, event, at) == Abort(SeatMismatch)
    ensures h.expiresAt <= r.worlds[i].clock
  {
    var w := r.worlds[i];
    PcOkInRun(r, i, pid);
    MismatchInRun(r, i, h, draft, event, at);
    if w.clock < h.expiresAt {
      LiveHoldInRun(r, i, h.id);
    }
  }

  // A live hold can be turned into a booking at any clock reading of the past: only a booking with the same
  // key, id, number or event stands in the way.
  lemma LiveHoldConfirms(r: TimedRun, i: nat, pid: nat, h: Hold, draft: Booking, event: Id, at: Time)
    requires IsTimedRun(r) && i < |r.worlds| && At(r.worlds[i], pid, FCommit(h, draft, event, at))
    requires IsLiveHold(r.worlds[i], h.id) && event !in r.worlds[i].core.db.outbox
    requires draft.id !in r.worlds[i].core.db.bookings
    requires forall b :: b in r.worlds[i].core.db.bookings ==>
               && r.worlds[i].core.db.bookings[b].number != draft.number
               && !SameBookingKey(r.worlds[i].core.db.bookings[b], draft)
    ensures ConfirmTx(r.worlds[i].core.db, h, h.user, draft, event, at).Commit?
  {
    var w := r.worlds[i];
    PcOkInRun(r, i, pid);
    LiveHoldInRun(r, i, h.id);
    MismatchInRun(r, i, h, draft, event, at);
    BookingsOkInRun(r, i);
    ActiveHoldHasNoBooking(w.core.db, h.id);
    assert HoldConfirmable(w.core.db, h, h.user, at);
    assert BookingIndexFree(w.core.db, draft);
  }

  lemma ActiveHoldHasNoBooking(db: Db, hold: Id)
    requires BookingsOk(db) && HasStatus(db, hold, Active)
    ensures forall b :: b in db.bookings ==> db.bookings[b].hold != hold
  {
    forall b | b in db.bookings ensures db.bookings[b].hold != hold {
      assert BookingOk(db, b);
    }
  }

  // ---------------------------------------------------------------- the Redis lock outlives the hold

  // Verification never reports a mismatch for a hold that is ACTIVE and has not expired.
  lemma VerifyFindsLiveHold(r: TimedRun, i: nat, pid: nat, h: Hold, input: Input)
    requires IsTimedRun(r) && i < |r.turns| && At(r.worlds[i], pid, FVerify(h)) && IsLiveHold(r.worlds[i], h.id)
    ensures AllOwned(r.worlds[i].redis, KeysOf(h), OwnerOf(h), r.worlds[i].clock)
    ensures r.turns[i] == Act(Move(pid, input)) ==> !input.redis.No?
  {
    var w := r.worlds[i];
    PcOkInRun(r, i, pid);
    LiveHoldInRun(r, i, h.id);
    assert WorldStep(w, r.turns[i], r.worlds[i + 1]);
  }

  // Redis lets only one contender at a time near the hold transaction for a seat.
  lemma OneContenderPerSeat(r: TimedRun, i: nat, p: nat, q: nat, a: Hold, b: Hold, s: Time, t: Time)
    requires IsTimedRun(r) && i < |r.worlds|
    requires At(r.worlds[i], p, CInsert(a, s)) && At(r.worlds[i], q, CInsert(b, t))
    requires r.worlds[i].clock < a.expiresAt && r.worlds[i].clock < b.expiresAt
    requires exists ref :: ref in Refs(a) && ref in Refs(b)
    ensures p == q && a == b
  {
    var w := r.worlds[i];
    PcOkInRun(r, i, p);
    PcOkInRun(r, i, q);
    var ref :| ref in Refs(a) && ref in Refs(b);
    assert w.redis[ref].owner == OwnerOf(a) == OwnerOf(b);
  }

  // ---------------------------------------------------------------- failed holds leave nothing behind

  ghost predicate HoldsNoSeat(db: Db, id: Id) {
    forall ref :: ref in db.seats ==> db.seats[ref].holdId != Some(id)
  }

  // No key a client can see belongs to the hold.
  ghost predicate NoLiveKey(w: World, id: Id) {
    forall ref :: IsLive(w.redis, ref, w.clock) ==> w.redis[ref].owner.hold != id
  }

  ghost predicate OthersKeepKeys(a: World, b: World, id: Id) {
    forall ref, o: Owner :: o.hold != id ==> (Owns(a.redis, ref, o, a.clock) <==> Owns(b.redis, ref, o, b.clock))
  }

  // When the hold transaction aborts, the database is as it was, and knows nothing of the hold.
  lemma AbortedHoldLeavesNoTrace(r: TimedRun, i: nat, pid: nat, h: Hold, now: Time, error: TxError)
    requires IsTimedRun(r) && i < |r.turns|
    requires At(r.worlds[i], pid, CInsert(h, now)) && At(r.worlds[i + 1], pid, CUndo(h, error))
    ensures r.worlds[i + 1].core.db == r.worlds[i].core.db
    ensures h.id !in r.worlds[i + 1].core.db.holds && HoldsNoSeat(r.worlds[i + 1].core.db, h.id)
  {
    var w, w' := r.worlds[i], r.worlds[i + 1];
    PcOkInRun(r, i, pid);
    assert WorldStep(w, r.turns[i], w');
    PcOkInRun(r, i + 1, pid);
    DbInvInRun(r, i + 1);
    UnknownHoldHasNoSeat(w'.core.db, h.id);
  }

  lemma UnknownHoldHasNoSeat(db: Db, id: Id)
    requires SeatsOk(db) && id !in db.holds
    ensures HoldsNoSeat(db, id)
  {
    forall ref | ref in db.seats ensures db.seats[ref].holdId != Some(id) {
      assert SeatOk(db, ref);
    }
  }

  // After the compensating release no key carries the hold's ownership, and all other owners keep theirs.
  lemma UndoLeavesNoKey(r: TimedRun, i: nat, pid: nat, h: Hold, error: TxError, input: Input)
    requires IsTimedRun(r) && i < |r.turns| && At(r.worlds[i], pid, CUndo(h, error))
    requires r.turns[i] == Act(Move(pid, input)) && !input.redis.Down?
    ensures NoLiveKey(r.worlds[i + 1], h.id) && OthersKeepKeys(r.worlds[i], r.worlds[i + 1], h.id)
  {
    var w, w' := r.worlds[i], r.worlds[i + 1];
    assert WorldStep(w, r.turns[i], w');
    PcOkInRun(r, i, pid);
    FreedLeavesNoKey(w, w', h);
  }

  lemma FreedLeavesNoKey(w: World, w': World, h: Hold)
    requires KeysWithin(w.redis, h) && w'.clock == w.clock
    requires w'.redis == Freed(w.redis, KeysOf(h), OwnerOf(h), w.clock)
    ensures NoLiveKey(w', h.id) && OthersKeepKeys(w, w', h.id)
  {
    ReleaseIsOwnershipSafe(w.redis, KeysOf(h), OwnerOf(h), w.clock);
  }

  // No request is about to acquire for the hold any more.
  ghost predicate PastAcquire(w: World, id: Id) {
    && id in w.issued
    && forall p :: p in w.core.procs && w.core.procs[p].pc.CAcquire? ==> w.core.procs[p].pc.hold.id != id
  }

  ghost predicate KeysGoneBy(w: World, id: Id, t: Time) {
    forall ref :: ref in w.redis && w.redis[ref].owner.hold == id ==> w.redis[ref].deadline <= t
  }

  // Hold ids are drawn once, so when a request undoes its acquisition, nobody is about to acquire for that hold.
  lemma UndoIsPastAcquire(r: TimedRun, i: nat, pid: nat, h: Hold, error: TxError)
    requires IsTimedRun(r) && i < |r.worlds| && At(r.worlds[i], pid, CUndo(h, error))
    ensures PastAcquire(r.worlds[i], h.id)
  {
    PcOkInRun(r, i, pid);
    var w := r.worlds[i];
    forall p | p in w.core.procs && w.core.procs[p].pc.CAcquire? ensures w.core.procs[p].pc.hold.id != h.id {
      PcOkInRun(r, i, p);
    }
  }

  lemma StepKeepsKeysGoing(w: World, t: Turn, w': World, id: Id, limit: Time)
    requires ProcsOk(w.core.db, w.core.procs) && WorldStep(w, t, w') && PastAcquire(w, id) && KeysGoneBy(w, id, limit)
    ensures PastAcquire(w', id) && KeysGoneBy(w', id, limit)
  {
    if t.Act? && t.l.Move? {
      MoveKeepsKeysGoing(w, t.l.pid, t.l.input, w', id, limit);
    }
  }

  lemma MoveKeepsKeysGoing(w: World, pid: nat, input: Input, w': World, id: Id, limit: Time)
    requires ProcsOk(w.core.db, w.core.procs) && WorldStep(w, Act(Move(pid, input)), w')
    requires PastAcquire(w, id) && KeysGoneBy(w, id, limit)
    ensures PastAcquire(w', id) && KeysGoneBy(w', id, limit)
  {
    var p := w.core.procs[pid];
    HonestRedis(w, pid, p.pc, input, w');
    assert PcOk(w.core.db, p.call, p.pc);
    NextAcquire(w.core.ttl, w.core.db, p.call, p.pc, input);
  }

  lemma NextAcquire(ttl: Time, db: Db, call: Call, pc: Pc, input: Input)
    requires PcOk(db, call, pc) && !pc.Done? && ValidInput(db, call, pc, input)
    ensures var next := Advance(ttl, db, call, pc, input).1;
            next.CAcquire? ==> pc.CPrepare? && next.hold.id == input.id
  {
    match call
    case CreateHold(_, _, _, _) =>
    case ReleaseHold(_, _) =>
    case Confirm(_, _, _) =>
    case ExpireDueHolds(_) =>
  }

  lemma {:induction false} KeysKeepGoing(r: TimedRun, i: nat, j: nat, id: Id)
    requires IsTimedRun(r) && i <= j < |r.worlds| && PastAcquire(r.worlds[i], id)
    ensures PastAcquire(r.worlds[j], id)
    ensures KeysGoneBy(r.worlds[j], id, r.worlds[i].clock + r.worlds[i].core.ttl)
  {
    if i == j {
      DeadlinesInRun(r, i);
    } else {
      KeysKeepGoing(r, i, j - 1, id);
      ProcsOkInRun(r, j - 1);
      StepKeepsKeysGoing(r.worlds[j - 1], r.turns[j - 1], r.worlds[j], id, r.worlds[i].clock + r.worlds[i].core.ttl);
    }
  }

  // One time to live after the acquisition for a hold was over, none of its keys is left, even if a Redis
  // answer was lost.
  lemma LeakedKeysExpire(r: TimedRun, i: nat, j: nat, id: Id)
    requires IsTimedRun(r) && i <= j < |r.worlds| && PastAcquire(r.worlds[i], id)
    requires r.worlds[i].clock + r.worlds[i].core.ttl <= r.worlds[j].clock
    ensures NoLiveKey(r.worlds[j], id)
  {
    KeysKeepGoing(r, i, j, id);
  }

  // In particular when the compensating release fails.
  lemma FailedUndoLeaksBriefly(r: TimedRun, i: nat, j: nat, pid: nat, h: Hold, error: TxError)
    requires IsTimedRun(r) && i <= j < |r.worlds| && At(r.worlds[i], pid, CUndo(h, error))
    requires r.worlds[i].clock + r.worlds[i].core.ttl <= r.worlds[j].clock
    ensures NoLiveKey(r.worlds[j], h.id)
  {
    UndoIsPastAcquire(r, i, pid, h, error);
    LeakedKeysExpire(r, i, j, h.id);
  }
}
