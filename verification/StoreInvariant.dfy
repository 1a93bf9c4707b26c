// What every transaction keeps, whatever clock readings and stale documents it is run with.
module StoreInvariant {
  import opened Domain
  import opened Database
  import opened Money

  // ---------------------------------------------------------------- the invariant

  ghost predicate SeatOk(db: Db, r: SeatRef)
    requires r in db.seats
  {
    var s := db.seats[r];
    match s.status
    case Available =>
      s.holdId.None? && s.lockedBy.None? && s.lockExpiresAt.None? && s.bookingId.None?
    case Locked =>
      && s.bookingId.None?
      && s.holdId.Some? && s.holdId.value in db.holds
      && var h := db.holds[s.holdId.value];
         h.status.Active? && r in Refs(h) && s.lockedBy == Some(h.user) && s.lockExpiresAt == Some(h.expiresAt)
    case Booked =>
      && s.holdId.None? && s.lockedBy.None? && s.lockExpiresAt.None?
      && s.bookingId.Some? && s.bookingId.value in db.bookings
      && r in BookingRefs(db.bookings[s.bookingId.value])
  }

  ghost predicate HasBooking(db: Db, hold: Id) {
    exists b :: b in db.bookings && db.bookings[b].hold == hold
  }

  ghost predicate HoldOk(db: Db, k: Id)
    requires k in db.holds
  {
    var h := db.holds[k];
    && h.id == k
    && Refs(h) <= db.seats.Keys
    && |Refs(h)| == |h.seats| && FewSeats(h.seats)
    && (h.status.Confirmed? ==> HasBooking(db, k))
  }

  predicate LinesMatch(db: Db, showtime: Id, lines: seq<Line>) {
    forall l :: l in lines ==>
      var r := SeatRef(showtime, l.seat);
      r in db.seats && db.seats[r].seatLabel == l.seatLabel && db.seats[r].price == l.price
  }

  ghost predicate BookingOk(db: Db, k: Id)
    requires k in db.bookings
  {
    var b := db.bookings[k];
    && b.id == k
    && b.hold in db.holds
    && FromHold(db.holds[b.hold], b) && db.holds[b.hold].status.Confirmed?
    && LinesMatch(db, b.showtime, b.lines)
    && forall r :: r in BookingRefs(b) ==>
         r in db.seats && db.seats[r].status.Booked? && db.seats[r].bookingId == Some(k)
  }

  // The part of a booking that comes from its hold, and its total.
  ghost predicate FromHold(h: Hold, b: Booking) {
    && b.hold == h.id && b.user == h.user && b.showtime == h.showtime
    && BookingRefs(b) == Refs(h) && |b.lines| == |h.seats|
    && b.total == Amount(b.lines)
    && InLabelOrder(b.lines)
  }

  predicate SameHoldKey(a: Hold, b: Hold) {
    a.user == b.user && a.key == b.key
  }

  predicate SameBookingKey(a: Booking, b: Booking) {
    a.user == b.user && a.key == b.key
  }

  ghost predicate IndexesOk(db: Db) {
    && (forall a, b :: a in db.holds && b in db.holds && SameHoldKey(db.holds[a], db.holds[b]) ==> a == b)
    && (forall a, b :: a in db.bookings && b in db.bookings && db.bookings[a].hold == db.bookings[b].hold ==> a == b)
    && (forall a, b ::
          a in db.bookings && b in db.bookings && db.bookings[a].number == db.bookings[b].number ==> a == b)
    && (forall a, b ::
          a in db.bookings && b in db.bookings && SameBookingKey(db.bookings[a], db.bookings[b]) ==> a == b)
  }

  ghost predicate HasStatus(db: Db, k: Id, s: HoldStatus) {
    k in db.holds && db.holds[k].status == s
  }

  ghost predicate AuditsOk(db: Db) {
    && (forall k :: db.audits[SeatReleased(k, Manual)] == if HasStatus(db, k, Released) then 1 else 0)
    && (forall k :: db.audits[SeatReleased(k, Timeout)] == if HasStatus(db, k, Expired) then 1 else 0)
    && (forall k :: db.audits[BookingTimeout(k)] == if HasStatus(db, k, Expired) then 1 else 0)
    && (forall b :: db.audits[BookingSuccess(b)] == if b in db.bookings then 1 else 0)
  }

  ghost predicate HasEvent(db: Db, b: Id) {
    exists e :: e in db.outbox && db.outbox[e].booking == b
  }

  ghost predicate OutboxOk(db: Db) {
    && (forall e :: e in db.outbox ==> db.outbox[e].booking in db.bookings)
    && (forall d, e :: d in db.outbox && e in db.outbox && db.outbox[d].booking == db.outbox[e].booking ==> d == e)
    && (forall b :: b in db.bookings ==> HasEvent(db, b))
  }

  ghost predicate SeatsOk(db: Db) {
    forall r :: r in db.seats ==> SeatOk(db, r)
  }

  ghost predicate HoldsOk(db: Db) {
    forall k :: k in db.holds ==> HoldOk(db, k)
  }

  ghost predicate BookingsOk(db: Db) {
    forall k :: k in db.bookings ==> BookingOk(db, k)
  }

  ghost predicate DbInv(db: Db) {
    SeatsOk(db) && HoldsOk(db) && BookingsOk(db) && IndexesOk(db) && AuditsOk(db) && OutboxOk(db)
  }

  ghost predicate InitialDb(db: Db) {
    && (forall r :: r in db.seats ==>
          var s := db.seats[r];
          s.status.Available? && s.holdId.None? && s.lockedBy.None? && s.lockExpiresAt.None? && s.bookingId.None?)
    && db == Db(db.seats, map[], map[], multiset{}, map[])
  }

  // A hold document some request has read earlier: all but its status is still right.
  ghost predicate Known(db: Db, h: Hold) {
    h.id in db.holds && SameCore(h, db.holds[h.id])
  }

  // The booking a confirmation has prepared for a hold.
  ghost predicate DraftFor(db: Db, h: Hold, b: Booking) {
    FromHold(h, b) && LinesMatch(db, b.showtime, b.lines)
  }

  // ---------------------------------------------------------------- what may change

  // Nothing is ever deleted, sold seats stay sold, and an ended hold stays ended.
  ghost predicate Evolves(a: Db, b: Db) {
    && a.seats.Keys == b.seats.Keys
    && (forall r :: r in a.seats ==>
          && a.seats[r].seatLabel == b.seats[r].seatLabel && a.seats[r].price == b.seats[r].price
          && (a.seats[r].status.Booked? ==> b.seats[r].status.Booked? && b.seats[r].bookingId == a.seats[r].bookingId))
    && (forall k :: k in a.holds ==>
          && k in b.holds && SameCore(a.holds[k], b.holds[k])
          && (!a.holds[k].status.Active? ==> b.holds[k] == a.holds[k]))
    && (forall k :: k in a.bookings ==> k in b.bookings && b.bookings[k] == a.bookings[k])
    && (forall e :: e in a.outbox ==> e in b.outbox && b.outbox[e].booking == a.outbox[e].booking)
  }

  lemma EvolvesTransitive(a: Db, b: Db, c: Db)
    requires Evolves(a, b) && Evolves(b, c)
    ensures Evolves(a, c)
  {
  }

  // ---------------------------------------------------------------- effects, seat by seat

  lemma HoldTxEffect(db: Db, h: Hold, now: Time, db': Db)
    requires HoldTx(db, h, now) == Commit(db')
    ensures Refs(h) <= db.seats.Keys && |Refs(h)| == |h.seats|
    ensures HoldIndexFree(db, h)
    ensures db' == db.(seats := db'.seats, holds := db.holds[h.id := h])
    ensures db'.seats.Keys == db.seats.Keys
    ensures forall r :: r in db.seats ==>
              if r in Refs(h) then Takeable(db.seats[r], now) && db'.seats[r] == LockSeat(db.seats[r], h)
              else db'.seats[r] == db.seats[r]
  {
    var hit := Matching(db.seats, Refs(h), s => Takeable(s, now));
    RefsSize(h);
    SubsetSize(hit, Refs(h));
  }

  lemma FreeHeldEffect(seats: map<SeatRef, Seat>, h: Hold)
    ensures FreeHeld(seats, h).Keys == seats.Keys
    ensures forall r :: r in seats ==>
              FreeHeld(seats, h)[r] ==
                if r in Refs(h) && HeldBy(seats[r], h.id) then FreeSeat(seats[r]) else seats[r]
  {
  }

  lemma ConfirmTxEffect(db: Db, h: Hold, user: Id, b: Booking, event: Id, at: Time, db': Db)
    requires ConfirmTx(db, h, user, b, event, at) == Commit(db')
    ensures HoldConfirmable(db, h, user, at) && BookingIndexFree(db, b) && event !in db.outbox
    ensures db' == Db(db'.seats, db.holds[h.id := db.holds[h.id].(status := Confirmed)], db.bookings[b.id := b],
                      db.audits + multiset{BookingSuccess(b.id)},
                      db.outbox[event := OutboxEvent(b.id, Pending, 0, at, None)])
    ensures db'.seats.Keys == db.seats.Keys
    ensures Refs(h) <= db.seats.Keys
    ensures forall r :: r in db.seats ==>
              if r in Refs(h)
              then Confirmable(db.seats[r], h.id, user, at) && db'.seats[r] == SellSeat(db.seats[r], b.id)
              else db'.seats[r] == db.seats[r]
  {
    var hit := Matching(db.seats, Refs(h), s => Confirmable(s, h.id, user, at));
    RefsSize(h);
    SubsetSize(hit, Refs(h));
  }

  // ---------------------------------------------------------------- preservation

  lemma InitialDbInv(db: Db)
    requires InitialDb(db)
    ensures DbInv(db)
  {
  }

  // Bookings that are not touched stay right, whatever else evolves.
  lemma BookingsKept(a: Db, b: Db)
    requires BookingsOk(a) && Evolves(a, b) && b.bookings == a.bookings
    ensures BookingsOk(b)
  {
    forall k | k in b.bookings ensures BookingOk(b, k) {
      assert BookingOk(a, k);
      assert k in a.bookings && b.bookings[k] == a.bookings[k];
      var h := a.bookings[k].hold;
      assert SameCore(a.holds[h], b.holds[h]);
    }
  }

  // Holds stay right as long as none of them is confirmed.
  lemma HoldsKept(a: Db, b: Db)
    requires HoldsOk(a) && Evolves(a, b)
    requires forall k :: k in b.holds && k !in a.holds ==> HoldOk(b, k)
    requires forall k :: k in a.holds && b.holds[k].status.Confirmed? ==> a.holds[k].status.Confirmed?
    ensures HoldsOk(b)
  {
    forall k | k in b.holds && k in a.holds ensures HoldOk(b, k) {
      assert HoldOk(a, k);
      assert SameCore(a.holds[k], b.holds[k]);
      if b.holds[k].status.Confirmed? {
        BookingKept(a, b, k);
      }
    }
  }

  lemma BookingKept(a: Db, b: Db, hold: Id)
    requires HasBooking(a, hold) && Evolves(a, b)
    ensures HasBooking(b, hold)
  {
    var c :| c in a.bookings && a.bookings[c].hold == hold;
    assert c in b.bookings && b.bookings[c].hold == hold;
  }

  lemma OutboxKept(a: Db, b: Db)
    requires OutboxOk(a) && Evolves(a, b) && b.bookings == a.bookings && b.outbox.Keys == a.outbox.Keys
    ensures OutboxOk(b)
  {
    forall e | e in b.outbox ensures e in a.outbox && b.outbox[e].booking == a.outbox[e].booking {
      assert e in b.outbox.Keys;
    }
    forall k | k in b.bookings ensures HasEvent(b, k) {
      assert HasEvent(a, k);
      var e :| e in a.outbox && a.outbox[e].booking == k;
      assert e in b.outbox && b.outbox[e].booking == k;
    }
  }

  lemma HoldTxEvolves(db: Db, h: Hold, now: Time, db': Db)
    requires HoldTx(db, h, now) == Commit(db')
    ensures Evolves(db, db')
  {
    HoldTxEffect(db, h, now, db');
  }

  lemma HoldTxKeepsLogs(db: Db, h: Hold, now: Time, db': Db)
    requires IndexesOk(db) && AuditsOk(db) && HoldTx(db, h, now) == Commit(db') && h.status.Active?
    ensures IndexesOk(db') && AuditsOk(db')
  {
    HoldTxEffect(db, h, now, db');
    assert forall k :: HasStatus(db', k, Released) <==> HasStatus(db, k, Released);
    assert forall k :: HasStatus(db', k, Expired) <==> HasStatus(db, k, Expired);
  }

  lemma HoldTxKeepsHolds(db: Db, h: Hold, now: Time, db': Db)
    requires HoldsOk(db) && HoldTx(db, h, now) == Commit(db') && h.status.Active? && FewSeats(h.seats)
    requires Evolves(db, db')
    ensures HoldsOk(db')
  {
    HoldTxEffect(db, h, now, db');
    HoldsKept(db, db');
  }

  lemma HoldTxFrame(db: Db, h: Hold, now: Time, db': Db)
    requires HoldTx(db, h, now) == Commit(db')
    ensures db'.bookings == db.bookings && db'.outbox == db.outbox && db'.audits == db.audits
  {
  }

  lemma HoldTxPreserves(db: Db, h: Hold, now: Time, db': Db)
    requires DbInv(db) && HoldTx(db, h, now) == Commit(db') && h.status.Active? && FewSeats(h.seats)
    ensures DbInv(db') && Evolves(db, db')
  {
    HoldTxEvolves(db, h, now, db');
    HoldTxFrame(db, h, now, db');
    HoldTxKeepsSeats(db, h, now, db');
    HoldTxKeepsHolds(db, h, now, db');
    HoldTxKeepsLogs(db, h, now, db');
    BookingsKept(db, db');
    OutboxKept(db, db');
  }

  lemma HoldTxKeepsSeats(db: Db, h: Hold, now: Time, db': Db)
    requires SeatsOk(db) && HoldTx(db, h, now) == Commit(db') && h.status.Active?
    ensures SeatsOk(db')
  {
    HoldTxEffect(db, h, now, db');
    forall r | r in db'.seats ensures SeatOk(db', r) {
      assert SeatOk(db, r);
    }
  }

  ghost predicate Ends(h: Hold, end: HoldStatus, audits: multiset<Audit>) {
    || (end == Released && audits == multiset{SeatReleased(h.id, Manual)})
    || (end == Expired && audits == multiset{BookingTimeout(h.id), SeatReleased(h.id, Timeout)})
  }

  function EndHold(db: Db, h: Hold, end: HoldStatus, audits: multiset<Audit>): Db
    requires h.id in db.holds
  {
    db.(holds := db.holds[h.id := db.holds[h.id].(status := end)], seats := FreeHeld(db.seats, h),
        audits := db.audits + audits)
  }

  // Giving up a hold: the common part of release and expiry.
  lemma EndHoldPreserves(db: Db, h: Hold, end: HoldStatus, audits: multiset<Audit>)
    requires DbInv(db) && Known(db, h) && db.holds[h.id].status.Active? && Ends(h, end, audits)
    ensures DbInv(EndHold(db, h, end, audits)) && Evolves(db, EndHold(db, h, end, audits))
  {
    var db' := EndHold(db, h, end, audits);
    EndHoldEvolves(db, h, end, audits);
    EndHoldKeepsSeats(db, h, end, audits);
    EndHoldKeepsHolds(db, h, end, audits);
    BookingsKept(db, db');
    OutboxKept(db, db');
    EndHoldKeepsAudits(db, h, end, audits);
    EndHoldKeepsIndexes(db, h, end, audits);
  }

  lemma EndHoldEvolves(db: Db, h: Hold, end: HoldStatus, audits: multiset<Audit>)
    requires h.id in db.holds && db.holds[h.id].status.Active?
    ensures Evolves(db, EndHold(db, h, end, audits))
  {
    FreeHeldEffect(db.seats, h);
  }

  lemma EndHoldKeepsHolds(db: Db, h: Hold, end: HoldStatus, audits: multiset<Audit>)
    requires HoldsOk(db) && h.id in db.holds && !end.Confirmed? && Evolves(db, EndHold(db, h, end, audits))
    ensures HoldsOk(EndHold(db, h, end, audits))
  {
    HoldsKept(db, EndHold(db, h, end, audits));
  }

  lemma EndHoldKeepsIndexes(db: Db, h: Hold, end: HoldStatus, audits: multiset<Audit>)
    requires IndexesOk(db) && h.id in db.holds
    ensures IndexesOk(EndHold(db, h, end, audits))
  {
    var db' := EndHold(db, h, end, audits);
    forall a, b | a in db'.holds && b in db'.holds && SameHoldKey(db'.holds[a], db'.holds[b]) ensures a == b {
      assert SameHoldKey(db.holds[a], db.holds[b]);
    }
  }

  lemma EndHoldKeepsSeats(db: Db, h: Hold, end: HoldStatus, audits: multiset<Audit>)
    requires SeatsOk(db) && Known(db, h) && !end.Active?
    ensures SeatsOk(EndHold(db, h, end, audits))
  {
    var db' := EndHold(db, h, end, audits);
    FreeHeldEffect(db.seats, h);
    assert Refs(h) == Refs(db.holds[h.id]);
    forall r | r in db'.seats ensures SeatOk(db', r) {
      assert SeatOk(db, r);
    }
  }

  lemma EndHoldKeepsAudits(db: Db, h: Hold, end: HoldStatus, audits: multiset<Audit>)
    requires AuditsOk(db) && h.id in db.holds && db.holds[h.id].status.Active? && Ends(h, end, audits)
    ensures AuditsOk(EndHold(db, h, end, audits))
  {
    var db' := EndHold(db, h, end, audits);
    forall k ensures db'.audits[SeatReleased(k, Manual)] == if HasStatus(db', k, Released) then 1 else 0 {
      assert HasStatus(db', k, Released) <==> if k == h.id then end == Released else HasStatus(db, k, Released);
    }
    forall k ensures db'.audits[SeatReleased(k, Timeout)] == if HasStatus(db', k, Expired) then 1 else 0 {
      assert HasStatus(db', k, Expired) <==> if k == h.id then end == Expired else HasStatus(db, k, Expired);
    }
    forall k ensures db'.audits[BookingTimeout(k)] == if HasStatus(db', k, Expired) then 1 else 0 {
      assert HasStatus(db', k, Expired) <==> if k == h.id then end == Expired else HasStatus(db, k, Expired);
    }
  }

  lemma ReleaseTxPreserves(db: Db, h: Hold, user: Id, db': Db)
    requires DbInv(db) && Known(db, h) && ReleaseTx(db, h, user) == Commit(db')
    ensures DbInv(db') && Evolves(db, db')
  {
    EndHoldPreserves(db, h, Released, multiset{SeatReleased(h.id, Manual)});
  }

  lemma ExpireTxPreserves(db: Db, h: Hold, now: Time)
    requires DbInv(db) && Known(db, h)
    ensures DbInv(ExpireTx(db, h, now)) && Evolves(db, ExpireTx(db, h, now))
  {
    if Claimable(db, h, now) {
      EndHoldPreserves(db, h, Expired, multiset{BookingTimeout(h.id), SeatReleased(h.id, Timeout)});
    }
  }

  lemma ConfirmTxEvolves(db: Db, h: Hold, user: Id, b: Booking, event: Id, at: Time, db': Db)
    requires ConfirmTx(db, h, user, b, event, at) == Commit(db')
    ensures Evolves(db, db')
  {
    ConfirmTxEffect(db, h, user, b, event, at, db');
  }

  lemma ConfirmTxPreserves(db: Db, h: Hold, user: Id, b: Booking, event: Id, at: Time, db': Db)
    requires DbInv(db) && Known(db, h) && DraftFor(db, h, b)
    requires ConfirmTx(db, h, user, b, event, at) == Commit(db')
    ensures DbInv(db') && Evolves(db, db')
  {
    ConfirmTxEvolves(db, h, user, b, event, at, db');
    ConfirmKeepsSeats(db, h, user, b, event, at, db');
    ConfirmKeepsHolds(db, h, user, b, event, at, db');
    ConfirmKeepsBookings(db, h, user, b, event, at, db');
    assert OutboxOk(db') by {
      ConfirmTxEffect(db, h, user, b, event, at, db');
      ConfirmKeepsOutbox(db, b, event, at, db');
    }
    ConfirmKeepsIndexes(db, h, user, b, event, at, db');
    ConfirmKeepsAudits(db, h, user, b, event, at, db');
  }

  lemma ConfirmKeepsSeats(db: Db, h: Hold, user: Id, b: Booking, event: Id, at: Time, db': Db)
    requires SeatsOk(db) && Known(db, h) && DraftFor(db, h, b)
    requires ConfirmTx(db, h, user, b, event, at) == Commit(db')
    ensures SeatsOk(db')
  {
    ConfirmTxEffect(db, h, user, b, event, at, db');
    assert Refs(h) == Refs(db.holds[h.id]);
    forall r | r in db'.seats ensures SeatOk(db', r) {
      assert SeatOk(db, r);
    }
  }

  lemma ConfirmKeepsHolds(db: Db, h: Hold, user: Id, b: Booking, event: Id, at: Time, db': Db)
    requires HoldsOk(db) && Known(db, h) && DraftFor(db, h, b)
    requires ConfirmTx(db, h, user, b, event, at) == Commit(db') && Evolves(db, db')
    ensures HoldsOk(db')
  {
    ConfirmTxEffect(db, h, user, b, event, at, db');
    forall k | k in db'.holds ensures HoldOk(db', k) {
      assert HoldOk(db, k);
      if k == h.id {
        assert b.id in db'.bookings && db'.bookings[b.id].hold == k;
      } else if db'.holds[k].status.Confirmed? {
        BookingKept(db, db', k);
      }
    }
  }

  lemma ConfirmKeepsBookings(db: Db, h: Hold, user: Id, b: Booking, event: Id, at: Time, db': Db)
    requires BookingsOk(db) && Known(db, h) && DraftFor(db, h, b)
    requires ConfirmTx(db, h, user, b, event, at) == Commit(db') && Evolves(db, db')
    ensures BookingsOk(db')
  {
    ConfirmTxEffect(db, h, user, b, event, at, db');
    forall k | k in db'.bookings && k != b.id ensures BookingOk(db', k) {
      assert BookingOk(db, k);
      assert SameCore(db.holds[db.bookings[k].hold], db'.holds[db.bookings[k].hold]);
    }
    DraftStable(db, db', h, b);
    assert BookingOk(db', b.id);
  }

  lemma ConfirmKeepsIndexes(db: Db, h: Hold, user: Id, b: Booking, event: Id, at: Time, db': Db)
    requires IndexesOk(db) && ConfirmTx(db, h, user, b, event, at) == Commit(db')
    ensures IndexesOk(db')
  {
    ConfirmTxEffect(db, h, user, b, event, at, db');
    forall a, c | a in db'.holds && c in db'.holds && SameHoldKey(db'.holds[a], db'.holds[c]) ensures a == c {
      assert SameHoldKey(db.holds[a], db.holds[c]);
    }
  }

  lemma ConfirmKeepsAudits(db: Db, h: Hold, user: Id, b: Booking, event: Id, at: Time, db': Db)
    requires AuditsOk(db) && ConfirmTx(db, h, user, b, event, at) == Commit(db')
    ensures AuditsOk(db')
  {
    ConfirmTxEffect(db, h, user, b, event, at, db');
    assert forall k :: HasStatus(db', k, Released) <==> HasStatus(db, k, Released);
    assert forall k :: HasStatus(db', k, Expired) <==> HasStatus(db, k, Expired);
  }

  lemma ConfirmKeepsOutbox(db: Db, b: Booking, event: Id, at: Time, db': Db)
    requires OutboxOk(db) && b.id !in db.bookings && event !in db.outbox
    requires db'.bookings == db.bookings[b.id := b]
    requires db'.outbox == db.outbox[event := OutboxEvent(b.id, Pending, 0, at, None)]
    ensures OutboxOk(db')
  {
    forall k | k in db'.bookings ensures HasEvent(db', k) {
      if k == b.id {
        assert event in db'.outbox && db'.outbox[event].booking == k;
      } else {
        assert HasEvent(db, k);
        var e :| e in db.outbox && db.outbox[e].booking == k;
        assert e in db'.outbox && db'.outbox[e].booking == k;
      }
    }
  }

  lemma OutboxTouchedPreserves(db: Db, db': Db)
    requires DbInv(db) && OutboxTouched(db, db')
    ensures DbInv(db') && Evolves(db, db')
  {
    assert Evolves(db, db');
    OutboxTouchedKeepsSeats(db, db');
    HoldsKept(db, db');
    BookingsKept(db, db');
    OutboxKept(db, db');
  }

  lemma OutboxTouchedKeepsSeats(db: Db, db': Db)
    requires SeatsOk(db) && AuditsOk(db) && OutboxTouched(db, db')
    ensures SeatsOk(db') && AuditsOk(db')
  {
    forall r | r in db'.seats ensures SeatOk(db', r) {
      assert SeatOk(db, r);
    }
    assert forall k, s :: HasStatus(db', k, s) <==> HasStatus(db, k, s);
  }

  // A draft that was right when it was made stays right.

  lemma DraftStable(a: Db, b: Db, h: Hold, d: Booking)
    requires Evolves(a, b) && DraftFor(a, h, d)
    ensures DraftFor(b, h, d)
  {
  }
}
