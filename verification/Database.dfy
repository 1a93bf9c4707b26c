// MongoDB: the collections, their unique indexes, and the four multi-document transactions.
//
// Each transaction is a function on database values, and a method of the class Store that performs
// the driver calls one after another, in place, and rolls back when one of them fails.
module Database {
  import opened Domain

  datatype Db = Db(
    seats: map<SeatRef, Seat>,
    holds: map<Id, Hold>,
    bookings: map<Id, Booking>,
    audits: multiset<Audit>,
    outbox: map<Id, OutboxEvent>)

  datatype TxError = SeatMismatch | HoldGone | DuplicateKey | StoreFailure

  datatype Tx = Commit(db: Db) | Abort(error: TxError)

  // The filters of the seat updates. A missing field matches no comparison.

  predicate Takeable(s: Seat, now: Time) {
    || s.status.Available?
    || (s.status.Locked? && s.lockExpiresAt.Some? && s.lockExpiresAt.value <= now)
  }

  predicate HeldBy(s: Seat, hold: Id) {
    s.status.Locked? && s.holdId == Some(hold)
  }

  predicate Confirmable(s: Seat, hold: Id, user: Id, now: Time) {
    HeldBy(s, hold) && s.lockedBy == Some(user) && s.lockExpiresAt.Some? && now < s.lockExpiresAt.value
  }

  // The updates.

  function LockSeat(s: Seat, h: Hold): Seat {
    s.(status := Locked, holdId := Some(h.id), lockedBy := Some(h.user), lockExpiresAt := Some(h.expiresAt),
       version := s.version + 1)
  }

  function FreeSeat(s: Seat): Seat {
    s.(status := Available, holdId := None, lockedBy := None, lockExpiresAt := None, version := s.version + 1)
  }

  function SellSeat(s: Seat, booking: Id): Seat {
    s.(status := Booked, bookingId := Some(booking), holdId := None, lockedBy := None, lockExpiresAt := None,
       version := s.version + 1)
  }

  function Matching(seats: map<SeatRef, Seat>, refs: set<SeatRef>, filter: Seat -> bool): set<SeatRef> {
    set r | r in refs && r in seats && filter(seats[r])
  }

  function Rewrite(seats: map<SeatRef, Seat>, hit: set<SeatRef>, update: Seat -> Seat): map<SeatRef, Seat> {
    map r | r in seats :: if r in hit then update(seats[r]) else seats[r]
  }

  // The unique indexes that an insertion may violate.

  ghost predicate HoldIndexFree(db: Db, h: Hold) {
    && h.id !in db.holds
    && forall k :: k in db.holds ==> !(db.holds[k].user == h.user && db.holds[k].key == h.key)
  }

  ghost predicate BookingIndexFree(db: Db, b: Booking) {
    && b.id !in db.bookings
    && forall k :: k in db.bookings ==>
         && db.bookings[k].number != b.number
         && db.bookings[k].hold != b.hold
         && !(db.bookings[k].user == b.user && db.bookings[k].key == b.key)
  }

  // CreateHold: take every requested seat that is free or whose lock has run out, or abort.
  ghost function HoldTx(db: Db, h: Hold, now: Time): Tx {
    var hit := Matching(db.seats, Refs(h), s => Takeable(s, now));
    if |hit| != |h.seats| then Abort(SeatMismatch)
    else if !HoldIndexFree(db, h) then Abort(DuplicateKey)
    else Commit(db.(seats := Rewrite(db.seats, hit, s => LockSeat(s, h)), holds := db.holds[h.id := h]))
  }

  function FreeHeld(seats: map<SeatRef, Seat>, h: Hold): map<SeatRef, Seat> {
    Rewrite(seats, Matching(seats, Refs(h), s => HeldBy(s, h.id)), FreeSeat)
  }

  // ReleaseHold: h is the document the request read earlier.
  function ReleaseTx(db: Db, h: Hold, user: Id): Tx {
    if h.id in db.holds && db.holds[h.id].user == user && db.holds[h.id].status.Active? then
      Commit(db.(
        holds := db.holds[h.id := db.holds[h.id].(status := Released)],
        seats := FreeHeld(db.seats, h),
        audits := db.audits + multiset{SeatReleased(h.id, Manual)}))
    else Abort(HoldGone)
  }

  // The hold that a confirmation may still turn into a booking at time `at`.
  predicate HoldConfirmable(db: Db, h: Hold, user: Id, at: Time) {
    h.id in db.holds && db.holds[h.id].user == user && db.holds[h.id].status.Active? && at < db.holds[h.id].expiresAt
  }

  // Confirm: at is the clock reading taken inside the transaction.
  ghost function ConfirmTx(db: Db, h: Hold, user: Id, b: Booking, event: Id, at: Time): Tx {
    var hit := Matching(db.seats, Refs(h), s => Confirmable(s, h.id, user, at));
    if !HoldConfirmable(db, h, user, at) then Abort(HoldGone)
    else if |hit| != |h.seats| then Abort(SeatMismatch)
    else if !BookingIndexFree(db, b) || event in db.outbox then Abort(DuplicateKey)
    else Commit(Db(
      Rewrite(db.seats, hit, s => SellSeat(s, b.id)),
      db.holds[h.id := db.holds[h.id].(status := Confirmed)],
      db.bookings[b.id := b],
      db.audits + multiset{BookingSuccess(b.id)},
      db.outbox[event := OutboxEvent(b.id, Pending, 0, at, None)]))
  }

  predicate Due(h: Hold, now: Time) {
    h.status.Active? && h.expiresAt <= now
  }

  predicate Claimable(db: Db, h: Hold, now: Time) {
    h.id in db.holds && Due(db.holds[h.id], now)
  }

  // expireOne: a hold that is no longer due commits nothing.
  function ExpireTx(db: Db, h: Hold, now: Time): Db {
    if Claimable(db, h, now) then
      db.(
        holds := db.holds[h.id := db.holds[h.id].(status := Expired)],
        seats := FreeHeld(db.seats, h),
        audits := db.audits + multiset{BookingTimeout(h.id), SeatReleased(h.id, Timeout)})
    else db
  }

  // The outbox worker only rewrites the delivery state of events that are already there.
  predicate OutboxTouched(db: Db, db': Db) {
    && db' == db.(outbox := db'.outbox)
    && db'.outbox.Keys == db.outbox.Keys
    && forall e :: e in db.outbox ==> db'.outbox[e].booking == db.outbox[e].booking
  }

  // The answer of the sweep's query: the `limit` earliest due holds, in order of expiry. A limit of 0 is
  // no limit.
  ghost predicate IsDueQuery(db: Db, now: Time, limit: nat, due: seq<Hold>) {
    && (forall i :: 0 <= i < |due| ==> due[i].id in db.holds && db.holds[due[i].id] == due[i] && Due(due[i], now))
    && (forall i, j :: 0 <= i < j < |due| ==> due[i].id != due[j].id && due[i].expiresAt <= due[j].expiresAt)
    && (limit > 0 ==> |due| <= limit)
    && (forall k :: k in db.holds && Due(db.holds[k], now) && db.holds[k] !in due ==>
          0 < limit == |due| && forall i :: 0 <= i < |due| ==> due[i].expiresAt <= db.holds[k].expiresAt)
  }

  class Store {
    var seats: map<SeatRef, Seat>
    var holds: map<Id, Hold>
    var bookings: map<Id, Booking>
    var audits: multiset<Audit>
    var outbox: map<Id, OutboxEvent>

    ghost function Contents(): Db
      reads this
    {
      Db(seats, holds, bookings, audits, outbox)
    }

    constructor (seats: map<SeatRef, Seat>)
      ensures Contents() == Db(seats, map[], map[], multiset{}, map[])
    {
      this.seats := seats;
      holds, bookings, audits, outbox := map[], map[], multiset{}, map[];
    }

    // UpdateMany on showtime_seats. Every update raises the version, so each match is a modification.
    method UpdateSeats(refs: set<SeatRef>, filter: Seat -> bool, update: Seat -> Seat) returns (modified: nat)
      modifies `seats
      ensures seats == Rewrite(old(seats), Matching(old(seats), refs, filter), update)
      ensures modified == |Matching(old(seats), refs, filter)|
    {
      var hit := Matching(seats, refs, filter);
      modified := |hit|;
      seats := Rewrite(seats, hit, update);
    }

    method InsertHold(h: Hold) returns (ok: bool)
      modifies `holds
      ensures ok <==> HoldIndexFree(old(Contents()), h)
      ensures holds == if ok then old(holds)[h.id := h] else old(holds)
    {
      ok := h.id !in holds && forall k :: k in holds ==> !(holds[k].user == h.user && holds[k].key == h.key);
      if ok {
        holds := holds[h.id := h];
      }
    }

    method InsertBooking(b: Booking) returns (ok: bool)
      modifies `bookings
      ensures ok <==> BookingIndexFree(old(Contents()), b)
      ensures bookings == if ok then old(bookings)[b.id := b] else old(bookings)
    {
      ok := b.id !in bookings
        && forall k :: k in bookings ==>
             && bookings[k].number != b.number
             && bookings[k].hold != b.hold
             && !(bookings[k].user == b.user && bookings[k].key == b.key);
      if ok {
        bookings := bookings[b.id := b];
      }
    }

    method CreateHold(h: Hold, now: Time) returns (error: Option<TxError>)
      modifies this
      ensures error.None? ==> HoldTx(old(Contents()), h, now) == Commit(Contents())
      ensures error.Some? ==> HoldTx(old(Contents()), h, now) == Abort(error.value) && Contents() == old(Contents())
    {
      var before := seats;
      var modified := UpdateSeats(Refs(h), s => Takeable(s, now), s => LockSeat(s, h));
      if modified != |h.seats| {
        seats := before;
        return Some(SeatMismatch);
      }
      var inserted := InsertHold(h);
      if !inserted {
        seats := before;
        return Some(DuplicateKey);
      }
      return None;
    }

    method Release(h: Hold, user: Id) returns (error: Option<TxError>)
      modifies this
      ensures error.None? ==> ReleaseTx(old(Contents()), h, user) == Commit(Contents())
      ensures error.Some? ==> ReleaseTx(old(Contents()), h, user) == Abort(error.value) && Contents() == old(Contents())
    {
      if !(h.id in holds && holds[h.id].user == user && holds[h.id].status.Active?) {
        return Some(HoldGone);
      }
      holds := holds[h.id := holds[h.id].(status := Released)];
      var _ := UpdateSeats(Refs(h), s => HeldBy(s, h.id), FreeSeat);
      audits := audits + multiset{SeatReleased(h.id, Manual)};
      return None;
    }

    method Confirm(h: Hold, user: Id, b: Booking, event: Id, at: Time) returns (error: Option<TxError>)
      modifies this
      ensures error.None? ==> ConfirmTx(old(Contents()), h, user, b, event, at) == Commit(Contents())
      ensures error.Some? ==>
        ConfirmTx(old(Contents()), h, user, b, event, at) == Abort(error.value) && Contents() == old(Contents())
    {
      if !(h.id in holds && holds[h.id].user == user && holds[h.id].status.Active? && at < holds[h.id].expiresAt) {
        return Some(HoldGone);
      }
      var holdsBefore, seatsBefore, bookingsBefore, auditsBefore := holds, seats, bookings, audits;
      holds := holds[h.id := holds[h.id].(status := Confirmed)];
      var modified := UpdateSeats(Refs(h), s => Confirmable(s, h.id, user, at), s => SellSeat(s, b.id));
      if modified != |h.seats| {
        holds, seats := holdsBefore, seatsBefore;
        return Some(SeatMismatch);
      }
      var inserted := InsertBooking(b);
      if !inserted {
        holds, seats := holdsBefore, seatsBefore;
        return Some(DuplicateKey);
      }
      audits := audits + multiset{BookingSuccess(b.id)};
      if event in outbox {
        holds, seats, bookings, audits := holdsBefore, seatsBefore, bookingsBefore, auditsBefore;
        return Some(DuplicateKey);
      }
      outbox := outbox[event := OutboxEvent(b.id, Pending, 0, at, None)];
      return None;
    }

    method ExpireOne(h: Hold, now: Time) returns (claimed: bool)
      modifies this
      ensures claimed <==> Claimable(old(Contents()), h, now)
      ensures Contents() == ExpireTx(old(Contents()), h, now)
    {
      claimed := h.id in holds && Due(holds[h.id], now);
      if claimed {
        holds := holds[h.id := holds[h.id].(status := Expired)];
        var _ := UpdateSeats(Refs(h), s => HeldBy(s, h.id), FreeSeat);
        audits := audits + multiset{BookingTimeout(h.id), SeatReleased(h.id, Timeout)};
      }
    }
  }
}
