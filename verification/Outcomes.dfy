// What a caller may count on: for each operation of the booking service, with nobody else about, which answer
// it gives under which circumstances, and what it leaves behind.
//
// Nothing here mentions the step program. The module Service proves the methods against it.
module Outcomes {
  import opened Domain
  import opened Database
  import opened StoreInvariant
  import opened RedisLock
  import opened Protocol

  // What each call of an operation meets, the first ones listed and the rest alike.
  datatype Calls = Calls(first: seq<Input>, later: Input) {
    function Nth(n: nat): Input {
      if n < |first| then first[n] else later
    }
  }

  ghost predicate NoKeyOf(data: Keyspace, h: Hold, now: Time) {
    forall r :: r in Refs(h) ==> !Owns(data, r, OwnerOf(h), now)
  }

  // ---------------------------------------------------------------- CreateHold

  // The hold that a request asks for, once it has read the clock and drawn an id.
  function Wanted(call: Call, ttl: Time, io: Calls): Hold
    requires call.CreateHold?
  {
    Hold(io.Nth(2).id, call.user, call.showtime, call.seats, io.Nth(2).token, Active, io.Nth(1).time + ttl, call.key)
  }

  ghost predicate KeyIsNew(db: Db, call: Call)
    requires call.CreateHold?
  {
    forall k :: !IsHoldFor(db, k, call.user, call.key)
  }

  predicate IsSame(h: Hold, call: Call)
    requires call.CreateHold?
  {
    SameRequest(h, call.showtime, call.seats)
  }

  predicate SeatsAreThere(db: Db, h: Hold) {
    Refs(h) <= db.seats.Keys && |Refs(h)| == |h.seats|
  }

  // Every seat is free, or its lock has run out.
  predicate AllTakeable(db: Db, h: Hold, now: Time) {
    forall r :: r in Refs(h) ==>
      && r in db.seats
      && var s := db.seats[r];
         s.status.Available? || (s.status.Locked? && s.lockExpiresAt.Some? && s.lockExpiresAt.value <= now)
  }

  predicate OneToTen(seats: seq<Id>) {
    1 <= |seats| <= 10
  }

  // What a seat keeps, and what every update does.
  predicate IsUpdated(s: Seat, s': Seat) {
    s'.seatLabel == s.seatLabel && s'.price == s.price && s'.version == s.version + 1
  }

  ghost predicate CreateOutcome(db: Db, data: Keyspace, now: Time, ttl: Time, call: Call, io: Calls, a: Answer)
    requires call.CreateHold?
  {
    var h := Wanted(call, ttl, io);
    if !OneToTen(call.seats) then a == Rejected(InvalidSeats)
    else if !io.Nth(0).reachable then a == Rejected(Internal)
    else if !KeyIsNew(db, call) then
      exists k :: IsHoldFor(db, k, call.user, call.key)
        && a == if IsSame(db.holds[k], call) then HoldMade(db.holds[k], true) else Rejected(KeyReused)
    else if !io.Nth(2).reachable then a == Rejected(Internal)
    else if !io.Nth(2).showtimeOpen then a == Rejected(ShowtimeUnavailable)
    else if !SeatsAreThere(db, h) then a == Rejected(InvalidSeats)
    else if io.Nth(3).redis.Down? then a == Rejected(LockServiceUnavailable)
    else if !AllFree(data, KeysOf(h), now) then a == Rejected(SeatUnavailable)
    else ReserveOutcome(db, h, io, a)
  }

  // Once the keys are granted.
  ghost predicate ReserveOutcome(db: Db, h: Hold, io: Calls, a: Answer) {
    if !io.Nth(4).reachable then a == Rejected(HoldCreationFailed)
    else if !AllTakeable(db, h, io.Nth(1).time) then a == Rejected(SeatUnavailable)
    else if h.id in db.holds then a == Rejected(HoldCreationFailed)
    else a == HoldMade(h, false)
  }

  // The circumstances under which a request comes to ask for its keys.
  ghost predicate AsksForKeys(db: Db, ttl: Time, call: Call, io: Calls)
    requires call.CreateHold?
  {
    && OneToTen(call.seats) && io.Nth(0).reachable && KeyIsNew(db, call)
    && io.Nth(2).reachable && io.Nth(2).showtimeOpen && SeatsAreThere(db, Wanted(call, ttl, io))
  }

  // A hold is made if and only if everything is in place for it, and each refusal has its own reason.
  lemma CreateExactly(db: Db, data: Keyspace, now: Time, ttl: Time, call: Call, io: Calls, a: Answer)
    requires call.CreateHold? && IndexesOk(db) && CreateOutcome(db, data, now, ttl, call, io, a)
    ensures var h := Wanted(call, ttl, io);
            a == HoldMade(h, false) <==>
              && AsksForKeys(db, ttl, call, io) && !io.Nth(3).redis.Down? && AllFree(data, KeysOf(h), now)
              && io.Nth(4).reachable && AllTakeable(db, h, io.Nth(1).time) && h.id !in db.holds
    ensures a.HoldMade? && !a.existing ==> a.hold == Wanted(call, ttl, io)
    ensures a.HoldMade? && a.existing <==>
              OneToTen(call.seats) && io.Nth(0).reachable
              && exists k :: IsHoldFor(db, k, call.user, call.key) && IsSame(db.holds[k], call)
    ensures a == Rejected(KeyReused) <==>
              OneToTen(call.seats) && io.Nth(0).reachable
              && exists k :: IsHoldFor(db, k, call.user, call.key) && !IsSame(db.holds[k], call)
    ensures a == Rejected(ShowtimeUnavailable) <==>
              OneToTen(call.seats) && io.Nth(0).reachable && KeyIsNew(db, call)
              && io.Nth(2).reachable && !io.Nth(2).showtimeOpen
    ensures a == Rejected(InvalidSeats) <==>
              || !OneToTen(call.seats)
              || (io.Nth(0).reachable && KeyIsNew(db, call) && io.Nth(2).reachable && io.Nth(2).showtimeOpen
                  && !SeatsAreThere(db, Wanted(call, ttl, io)))
    ensures a == Rejected(LockServiceUnavailable) <==> AsksForKeys(db, ttl, call, io) && io.Nth(3).redis.Down?
    ensures a == Rejected(SeatUnavailable) <==>
              var h := Wanted(call, ttl, io);
              && AsksForKeys(db, ttl, call, io) && !io.Nth(3).redis.Down?
              && (!AllFree(data, KeysOf(h), now) || (io.Nth(4).reachable && !AllTakeable(db, h, io.Nth(1).time)))
    ensures a == Rejected(HoldCreationFailed) <==>
              var h := Wanted(call, ttl, io);
              && AsksForKeys(db, ttl, call, io) && !io.Nth(3).redis.Down? && AllFree(data, KeysOf(h), now)
              && (!io.Nth(4).reachable || (AllTakeable(db, h, io.Nth(1).time) && h.id in db.holds))
    ensures a == Rejected(Internal) <==>
              OneToTen(call.seats) && (!io.Nth(0).reachable || (KeyIsNew(db, call) && !io.Nth(2).reachable))
  {
    if k :| IsHoldFor(db, k, call.user, call.key) {
      forall j | IsHoldFor(db, j, call.user, call.key) ensures j == k {
        assert SameHoldKey(db.holds[j], db.holds[k]);
      }
    }
  }

  // What a new hold leaves behind.
  ghost predicate HoldIsTaken(db: Db, db': Db, h: Hold) {
    && db'.holds == db.holds[h.id := h] && db'.seats.Keys == db.seats.Keys && Refs(h) <= db.seats.Keys
    && (forall r :: r in db.seats && r !in Refs(h) ==> db'.seats[r] == db.seats[r])
    && (forall r :: r in Refs(h) ==>
          && IsUpdated(db.seats[r], db'.seats[r])
          && db'.seats[r].status.Locked? && db'.seats[r].holdId == Some(h.id)
          && db'.seats[r].lockedBy == Some(h.user) && db'.seats[r].lockExpiresAt == Some(h.expiresAt))
    && db'.bookings == db.bookings && db'.audits == db.audits && db'.outbox == db.outbox
  }

  // ---------------------------------------------------------------- ReleaseHold

  ghost predicate ReleaseOutcome(db: Db, call: Call, io: Calls, a: Answer)
    requires call.ReleaseHold?
  {
    if !io.Nth(0).reachable then a == Rejected(Internal)
    else if call.hold !in db.holds then a == Rejected(HoldNotFound)
    else if db.holds[call.hold].user != call.user then a == Rejected(Forbidden)
    else if !db.holds[call.hold].status.Active? then a == HoldGivenUp(db.holds[call.hold])
    else if !io.Nth(1).reachable then a == Rejected(Internal)
    else a == HoldGivenUp(db.holds[call.hold].(status := Released))
  }

  // The hold is given up if and only if it is the caller's and within reach, and each refusal has its own reason.
  lemma ReleaseExactly(db: Db, call: Call, io: Calls, a: Answer)
    requires call.ReleaseHold? && ReleaseOutcome(db, call, io, a)
    ensures a.HoldGivenUp? <==>
              && io.Nth(0).reachable && call.hold in db.holds && db.holds[call.hold].user == call.user
              && (db.holds[call.hold].status.Active? ==> io.Nth(1).reachable)
    ensures a.HoldGivenUp? ==>
              var h := db.holds[call.hold]; a.hold == if h.status.Active? then h.(status := Released) else h
    ensures a == Rejected(HoldNotFound) <==> io.Nth(0).reachable && call.hold !in db.holds
    ensures a == Rejected(Forbidden) <==>
              io.Nth(0).reachable && call.hold in db.holds && db.holds[call.hold].user != call.user
    ensures a == Rejected(Internal) <==>
              || !io.Nth(0).reachable
              || (call.hold in db.holds && db.holds[call.hold].user == call.user
                  && db.holds[call.hold].status.Active? && !io.Nth(1).reachable)
  {
  }

  ghost predicate Releases(db: Db, call: Call, io: Calls)
    requires call.ReleaseHold?
  {
    && io.Nth(0).reachable && call.hold in db.holds && db.holds[call.hold].user == call.user
    && db.holds[call.hold].status.Active? && io.Nth(1).reachable
  }

  // What a hold that has been given up leaves behind.
  ghost predicate HoldIsFreed(db: Db, db': Db, h: Hold, end: HoldStatus) {
    && db'.holds == db.holds[h.id := h.(status := end)] && db'.seats.Keys == db.seats.Keys
    && (forall r :: r in db.seats ==>
          if r in Refs(h) && db.seats[r].status.Locked? && db.seats[r].holdId == Some(h.id)
          then IsUpdated(db.seats[r], db'.seats[r]) && db'.seats[r].status.Available?
               && db'.seats[r].holdId.None? && db'.seats[r].lockedBy.None? && db'.seats[r].lockExpiresAt.None?
          else db'.seats[r] == db.seats[r])
    && db'.bookings == db.bookings && db'.outbox == db.outbox
  }

  // ---------------------------------------------------------------- Confirm

  ghost predicate KeyUnspent(db: Db, call: Call)
    requires call.Confirm?
  {
    forall k :: !IsBookingFor(db, k, call.user, call.key)
  }

  ghost predicate HoldUnbooked(db: Db, call: Call)
    requires call.Confirm?
  {
    forall k :: !IsBookingOf(db, k, call.user, call.hold)
  }

  // The last attempt of the driver at the transaction, from the n-th call on: the first one that does not
  // fail for a moment, or that is the last on the list.
  function LastAttempt(io: Calls, n: nat): nat
    decreases |io.first| - n
  {
    if !io.Nth(n + 1).reachable && io.Nth(n + 1).retry && n + 2 < |io.first| then LastAttempt(io, n + 2) else n
  }

  predicate Sellable(db: Db, h: Hold, user: Id, at: Time) {
    && at < h.expiresAt
    && forall r :: r in Refs(h) ==>
         && r in db.seats
         && var s := db.seats[r];
            && s.status.Locked? && s.holdId == Some(h.id) && s.lockedBy == Some(user)
            && s.lockExpiresAt.Some? && at < s.lockExpiresAt.value
  }

  // Nothing that the booking is called by is taken.
  ghost predicate NamesAreFree(db: Db, call: Call, io: Calls)
    requires call.Confirm?
  {
    && io.Nth(5).id !in db.bookings && io.Nth(5).event !in db.outbox
    && forall k :: k in db.bookings ==>
         && db.bookings[k].number != io.Nth(5).number && db.bookings[k].hold != call.hold
         && !(db.bookings[k].user == call.user && db.bookings[k].key == call.key)
  }

  ghost predicate ConfirmOutcome(db: Db, data: Keyspace, now: Time, call: Call, io: Calls, a: Answer)
    requires call.Confirm?
  {
    if !io.Nth(0).reachable then a == Rejected(Internal)
    else if !KeyUnspent(db, call) then
      exists k :: IsBookingFor(db, k, call.user, call.key)
        && a == if db.bookings[k].hold == call.hold then BookingMade(db.bookings[k], true) else Rejected(KeyReused)
    else if !io.Nth(1).reachable then a == Rejected(Internal)
    else if !HoldUnbooked(db, call) then
      exists k :: IsBookingOf(db, k, call.user, call.hold) && a == BookingMade(db.bookings[k], true)
    else if !io.Nth(2).reachable then a == Rejected(Internal)
    else if call.hold !in db.holds then a == Rejected(HoldNotFound)
    else if db.holds[call.hold].user != call.user then a == Rejected(Forbidden)
    else PurchaseOutcome(db, data, now, db.holds[call.hold], call, io, a)
  }

  // Once the hold is loaded.
  ghost predicate PurchaseOutcome(db: Db, data: Keyspace, now: Time, h: Hold, call: Call, io: Calls, a: Answer)
    requires call.Confirm?
  {
    if !h.status.Active? || h.expiresAt <= io.Nth(3).time then a == Rejected(HoldExpired)
    else if io.Nth(4).redis.Down? then a == Rejected(LockServiceUnavailable)
    else if !AllOwned(data, KeysOf(h), OwnerOf(h), now) then a == Rejected(HoldExpired)
    else if !io.Nth(5).reachable then a == Rejected(Internal)
    else if !SeatsAreThere(db, h) then a == Rejected(HoldInvalid)
    else BookOutcome(db, h, call, io, a)
  }

  // Once the seats are read.
  ghost predicate BookOutcome(db: Db, h: Hold, call: Call, io: Calls, a: Answer)
    requires call.Confirm?
  {
    var n := LastAttempt(io, 8);
    if !io.Nth(n + 1).reachable then a == Rejected(BookingConfirmationFailed)
    else if !Sellable(db, h, call.user, io.Nth(n).time) then a == Rejected(HoldExpired)
    else if !NamesAreFree(db, call, io) then a == Rejected(BookingConfirmationFailed)
    else
      && a.BookingMade? && !a.existing && a.booking.id == io.Nth(5).id && a.booking.number == io.Nth(5).number
      && a.booking.hold == call.hold && a.booking.user == call.user && a.booking.key == call.key
  }

  // The circumstances under which a confirmation comes to look at its hold, to verify its keys, and to book.
  ghost predicate LoadsHold(db: Db, call: Call, io: Calls)
    requires call.Confirm?
  {
    io.Nth(0).reachable && KeyUnspent(db, call) && io.Nth(1).reachable && HoldUnbooked(db, call) && io.Nth(2).reachable
  }

  ghost predicate LoadsOwn(db: Db, call: Call, io: Calls)
    requires call.Confirm?
  {
    LoadsHold(db, call, io) && call.hold in db.holds && db.holds[call.hold].user == call.user
  }

  ghost predicate VerifiesKeys(db: Db, call: Call, io: Calls)
    requires call.Confirm?
  {
    && LoadsOwn(db, call, io)
    && db.holds[call.hold].status.Active? && io.Nth(3).time < db.holds[call.hold].expiresAt
  }

  ghost predicate HasVerified(db: Db, data: Keyspace, now: Time, call: Call, io: Calls)
    requires call.Confirm?
  {
    && VerifiesKeys(db, call, io) && !io.Nth(4).redis.Down?
    && var h := db.holds[call.hold]; AllOwned(data, KeysOf(h), OwnerOf(h), now)
  }

  ghost predicate Books(db: Db, data: Keyspace, now: Time, call: Call, io: Calls)
    requires call.Confirm?
  {
    HasVerified(db, data, now, call, io) && io.Nth(5).reachable && SeatsAreThere(db, db.holds[call.hold])
  }

  // A booking is made if and only if everything is in place for it, and each refusal has its own reason.
  lemma ConfirmExactly(db: Db, data: Keyspace, now: Time, call: Call, io: Calls, a: Answer)
    requires call.Confirm? && IndexesOk(db) && ConfirmOutcome(db, data, now, call, io, a)
    ensures var n := LastAttempt(io, 8);
            a.BookingMade? && !a.existing <==>
              && Books(db, data, now, call, io) && io.Nth(n + 1).reachable
              && Sellable(db, db.holds[call.hold], call.user, io.Nth(n).time) && NamesAreFree(db, call, io)
    ensures a.BookingMade? && a.existing <==>
              io.Nth(0).reachable
              && if KeyUnspent(db, call) then io.Nth(1).reachable && !HoldUnbooked(db, call)
                 else exists k :: IsBookingFor(db, k, call.user, call.key) && db.bookings[k].hold == call.hold
    ensures a == Rejected(KeyReused) <==>
              io.Nth(0).reachable
              && exists k :: IsBookingFor(db, k, call.user, call.key) && db.bookings[k].hold != call.hold
    ensures a == Rejected(HoldNotFound) <==> LoadsHold(db, call, io) && call.hold !in db.holds
    ensures a == Rejected(Forbidden) <==>
              LoadsHold(db, call, io) && call.hold in db.holds && db.holds[call.hold].user != call.user
    ensures a == Rejected(LockServiceUnavailable) <==> VerifiesKeys(db, call, io) && io.Nth(4).redis.Down?
    ensures a == Rejected(HoldInvalid) <==>
              HasVerified(db, data, now, call, io) && io.Nth(5).reachable && !SeatsAreThere(db, db.holds[call.hold])
    ensures var n := LastAttempt(io, 8);
            a == Rejected(HoldExpired) <==>
              || (LoadsOwn(db, call, io) && !VerifiesKeys(db, call, io))
              || (VerifiesKeys(db, call, io) && !io.Nth(4).redis.Down? && !HasVerified(db, data, now, call, io))
              || (Books(db, data, now, call, io) && io.Nth(n + 1).reachable
                  && !Sellable(db, db.holds[call.hold], call.user, io.Nth(n).time))
    ensures var n := LastAttempt(io, 8);
            a == Rejected(BookingConfirmationFailed) <==>
              && Books(db, data, now, call, io)
              && (!io.Nth(n + 1).reachable
                  || (Sellable(db, db.holds[call.hold], call.user, io.Nth(n).time) && !NamesAreFree(db, call, io)))
    ensures a == Rejected(Internal) <==>
              || !io.Nth(0).reachable
              || (KeyUnspent(db, call) && !io.Nth(1).reachable)
              || (KeyUnspent(db, call) && HoldUnbooked(db, call) && !io.Nth(2).reachable)
              || (HasVerified(db, data, now, call, io) && !io.Nth(5).reachable)
  {
    if k :| IsBookingFor(db, k, call.user, call.key) {
      forall j | IsBookingFor(db, j, call.user, call.key) ensures j == k {
        assert SameBookingKey(db.bookings[j], db.bookings[k]);
      }
    }
  }

  // What a new booking leaves behind.
  ghost predicate HoldIsSold(db: Db, db': Db, h: Hold, b: Booking, io: Calls) {
    var event, at := io.Nth(5).event, io.Nth(LastAttempt(io, 8)).time;
    && db'.holds == db.holds[h.id := h.(status := Confirmed)] && db'.seats.Keys == db.seats.Keys
    && Refs(h) <= db.seats.Keys && BookingRefs(b) == Refs(h) && b.hold == h.id && b.user == h.user
    && (forall r :: r in db.seats && r !in Refs(h) ==> db'.seats[r] == db.seats[r])
    && (forall r :: r in Refs(h) ==>
          && IsUpdated(db.seats[r], db'.seats[r])
          && db'.seats[r].status.Booked? && db'.seats[r].bookingId == Some(b.id) && db'.seats[r].holdId.None?
          && db'.seats[r].lockedBy.None? && db'.seats[r].lockExpiresAt.None?)
    && db'.bookings == db.bookings[b.id := b] && db'.audits == db.audits + multiset{BookingSuccess(b.id)}
    && db'.outbox == db.outbox[event := OutboxEvent(b.id, Pending, 0, at, None)]
  }
}
