// The protocol a reader would want: one ledger, changed in single atomic steps.
module Ledger {
  import opened Domain
  import opened Database
  import opened StoreInvariant

  datatype Place = Free | Held(hold: Id, deadline: Time) | Sold(booking: Id)

  datatype Book = Book(places: map<SeatRef, Place>, open: map<Id, set<SeatRef>>, ended: set<Id>)

  datatype Entry =
    | Take(hold: Id, refs: set<SeatRef>, now: Time, deadline: Time)
    | GiveUp(hold: Id)
    | Sell(hold: Id, booking: Id, at: Time)

  function Put(places: map<SeatRef, Place>, refs: set<SeatRef>, p: Place): map<SeatRef, Place> {
    map r | r in places :: if r in refs then p else places[r]
  }

  ghost predicate CanEnter(l: Book, e: Entry) {
    match e
    case Take(hold, refs, now, deadline) =>
      && hold !in l.open && hold !in l.ended && refs <= l.places.Keys
      && forall r :: r in refs ==> l.places[r].Free? || (l.places[r].Held? && l.places[r].deadline <= now)
    case GiveUp(hold) =>
      hold in l.open
    case Sell(hold, booking, at) =>
      && hold in l.open && l.open[hold] <= l.places.Keys
      && (forall r :: r in l.open[hold] ==>
            l.places[r].Held? && l.places[r].hold == hold && at < l.places[r].deadline)
      && (forall r :: r in l.places ==> l.places[r] != Sold(booking))
  }

  ghost function Entered(l: Book, e: Entry): Book
    requires CanEnter(l, e)
  {
    match e
    case Take(hold, refs, now, deadline) =>
      Book(Put(l.places, refs, Held(hold, deadline)), l.open[hold := refs], l.ended)
    case GiveUp(hold) =>
      Book(map r | r in l.places :: if l.places[r].Held? && l.places[r].hold == hold then Free else l.places[r],
           l.open - {hold}, l.ended + {hold})
    case Sell(hold, booking, at) =>
      Book(Put(l.places, l.open[hold], Sold(booking)), l.open - {hold}, l.ended + {hold})
  }

  ghost predicate LedgerStep(l: Book, e: Entry, l': Book) {
    CanEnter(l, e) && l' == Entered(l, e)
  }

  // A place on the ledger is sold once and for all.
  lemma SoldForever(l: Book, e: Entry, r: SeatRef)
    requires CanEnter(l, e) && r in l.places && l.places[r].Sold?
    ensures r in Entered(l, e).places && Entered(l, e).places[r] == l.places[r]
  {
  }

  // Only giving up a hold frees places, and only its own.
  lemma OnlyGiveUpFrees(l: Book, e: Entry, r: SeatRef)
    requires CanEnter(l, e) && r in l.places && !l.places[r].Free? && Entered(l, e).places[r].Free?
    ensures e.GiveUp? && l.places[r].Held? && l.places[r].hold == e.hold
  {
  }

  // A hold is closed by giving it up or by selling it.
  lemma ClosedBy(l: Book, e: Entry, hold: Id)
    requires CanEnter(l, e) && hold in l.open && hold !in l.ended
    ensures hold in Entered(l, e).ended <==> (e.GiveUp? || e.Sell?) && e.hold == hold
  {
  }

  // A held place stays held until its hold ends, or until a Take that finds its deadline passed.
  lemma HeldPlaceStays(l: Book, e: Entry, r: SeatRef)
    requires CanEnter(l, e) && r in l.places && l.places[r].Held?
    ensures r in Entered(l, e).places
    ensures Entered(l, e).places[r] == l.places[r]
      || l.places[r].hold in Entered(l, e).ended
      || (e.Take? && l.places[r].deadline <= e.now)
  {
  }

  // ---------------------------------------------------------------- abstraction

  function PlaceOf(s: Seat): Place {
    match s.status
    case Available => Free
    case Locked => if s.holdId.Some? && s.lockExpiresAt.Some? then Held(s.holdId.value, s.lockExpiresAt.value) else Free
    case Booked => if s.bookingId.Some? then Sold(s.bookingId.value) else Free
  }

  function PlacesOf(seats: map<SeatRef, Seat>): map<SeatRef, Place> {
    map r | r in seats :: PlaceOf(seats[r])
  }

  function OpenHolds(holds: map<Id, Hold>): map<Id, set<SeatRef>> {
    map k | k in holds && holds[k].status.Active? :: Refs(holds[k])
  }

  function EndedHolds(holds: map<Id, Hold>): set<Id> {
    set k | k in holds && !holds[k].status.Active?
  }

  function Abstract(db: Db): Book {
    Book(PlacesOf(db.seats), OpenHolds(db.holds), EndedHolds(db.holds))
  }

  // The ledger entry of a step: none for a step the ledger does not see.
  ghost predicate Refines(db: Db, db': Db, entry: Option<Entry>) {
    match entry
    case None => Abstract(db') == Abstract(db)
    case Some(e) => LedgerStep(Abstract(db), e, Abstract(db'))
  }

  function TakeEntry(h: Hold, now: Time): Entry {
    Take(h.id, Refs(h), now, h.expiresAt)
  }

  lemma HoldTxRefines(db: Db, h: Hold, now: Time, db': Db)
    requires SeatsOk(db) && HoldTx(db, h, now) == Commit(db') && h.status.Active?
    ensures LedgerStep(Abstract(db), TakeEntry(h, now), Abstract(db'))
  {
    HoldTxEffect(db, h, now, db');
    TakePlaces(db, h, now, db');
    OpenHold(db.holds, h);
  }

  lemma OpenHold(holds: map<Id, Hold>, h: Hold)
    requires h.id !in holds && h.status.Active?
    ensures OpenHolds(holds[h.id := h]) == OpenHolds(holds)[h.id := Refs(h)]
    ensures EndedHolds(holds[h.id := h]) == EndedHolds(holds)
  {
  }

  lemma CloseHold(holds: map<Id, Hold>, k: Id, end: HoldStatus)
    requires k in holds && holds[k].status.Active? && !end.Active?
    ensures OpenHolds(holds[k := holds[k].(status := end)]) == OpenHolds(holds) - {k}
    ensures EndedHolds(holds[k := holds[k].(status := end)]) == EndedHolds(holds) + {k}
  {
  }

  lemma TakePlaces(db: Db, h: Hold, now: Time, db': Db)
    requires SeatsOk(db) && HoldTx(db, h, now) == Commit(db')
    ensures PlacesOf(db'.seats) == Put(PlacesOf(db.seats), Refs(h), Held(h.id, h.expiresAt))
    ensures forall r :: r in Refs(h) ==>
              r in db.seats &&
              var p := PlaceOf(db.seats[r]);
              p.Free? || (p.Held? && p.deadline <= now)
  {
    HoldTxEffect(db, h, now, db');
    forall r | r in Refs(h)
      ensures PlaceOf(db.seats[r]).Free? || (PlaceOf(db.seats[r]).Held? && PlaceOf(db.seats[r]).deadline <= now)
    {
      assert SeatOk(db, r);
    }
  }

  lemma FreePlaces(db: Db, h: Hold)
    requires SeatsOk(db) && Known(db, h)
    ensures PlacesOf(FreeHeld(db.seats, h)) ==
              map r | r in PlacesOf(db.seats) ::
                if PlacesOf(db.seats)[r].Held? && PlacesOf(db.seats)[r].hold == h.id then Free
                else PlacesOf(db.seats)[r]
  {
    FreeHeldEffect(db.seats, h);
    assert Refs(h) == Refs(db.holds[h.id]);
    forall r | r in db.seats
      ensures PlaceOf(FreeHeld(db.seats, h)[r]) ==
                if PlaceOf(db.seats[r]).Held? && PlaceOf(db.seats[r]).hold == h.id then Free else PlaceOf(db.seats[r])
    {
      assert SeatOk(db, r);
    }
  }

  lemma EndHoldRefines(db: Db, h: Hold, end: HoldStatus, audits: multiset<Audit>)
    requires SeatsOk(db) && Known(db, h) && db.holds[h.id].status.Active? && !end.Active?
    ensures LedgerStep(Abstract(db), GiveUp(h.id), Abstract(EndHold(db, h, end, audits)))
  {
    FreePlaces(db, h);
    CloseHold(db.holds, h.id, end);
  }

  lemma ReleaseTxRefines(db: Db, h: Hold, user: Id, db': Db)
    requires SeatsOk(db) && Known(db, h) && ReleaseTx(db, h, user) == Commit(db')
    ensures LedgerStep(Abstract(db), GiveUp(h.id), Abstract(db'))
  {
    EndHoldRefines(db, h, Released, multiset{SeatReleased(h.id, Manual)});
  }

  lemma ExpireTxRefines(db: Db, h: Hold, now: Time)
    requires SeatsOk(db) && Known(db, h)
    ensures if Claimable(db, h, now) then LedgerStep(Abstract(db), GiveUp(h.id), Abstract(ExpireTx(db, h, now)))
            else ExpireTx(db, h, now) == db
  {
    if Claimable(db, h, now) {
      EndHoldRefines(db, h, Expired, multiset{BookingTimeout(h.id), SeatReleased(h.id, Timeout)});
    }
  }

  lemma ConfirmTxRefines(db: Db, h: Hold, user: Id, b: Booking, event: Id, at: Time, db': Db)
    requires SeatsOk(db) && Known(db, h) && ConfirmTx(db, h, user, b, event, at) == Commit(db')
    ensures LedgerStep(Abstract(db), Sell(h.id, b.id, at), Abstract(db'))
  {
    ConfirmTxEffect(db, h, user, b, event, at, db');
    SellPlaces(db, h, user, b, event, at, db');
    CloseHold(db.holds, h.id, Confirmed);
  }

  lemma SellPlaces(db: Db, h: Hold, user: Id, b: Booking, event: Id, at: Time, db': Db)
    requires SeatsOk(db) && Known(db, h) && ConfirmTx(db, h, user, b, event, at) == Commit(db')
    ensures Refs(h) == Refs(db.holds[h.id]) && Refs(h) <= db.seats.Keys
    ensures PlacesOf(db'.seats) == Put(PlacesOf(db.seats), Refs(h), Sold(b.id))
    ensures forall r :: r in db.seats ==> PlaceOf(db.seats[r]) != Sold(b.id)
    ensures forall r :: r in Refs(h) ==>
              PlaceOf(db.seats[r]).Held? && PlaceOf(db.seats[r]).hold == h.id && at < PlaceOf(db.seats[r]).deadline
  {
    ConfirmTxEffect(db, h, user, b, event, at, db');
    forall r | r in db.seats ensures PlaceOf(db.seats[r]) != Sold(b.id) {
      assert SeatOk(db, r);
    }
  }

  lemma OutboxTouchedRefines(db: Db, db': Db)
    requires OutboxTouched(db, db')
    ensures Abstract(db') == Abstract(db)
  {
  }

  // A hold leaves ACTIVE exactly when an entry closes it.
  lemma EndsByEntry(a: Db, b: Db, entry: Option<Entry>, hold: Id)
    requires Refines(a, b, entry)
    ensures HasStatus(a, hold, Active) && hold in b.holds && !b.holds[hold].status.Active? <==>
              entry.Some? && (entry.value.GiveUp? || entry.value.Sell?) && entry.value.hold == hold
  {
    var l, l' := Abstract(a), Abstract(b);
    assert HasStatus(a, hold, Active) <==> hold in l.open;
    assert hold in l.open ==> hold !in l.ended;
    assert hold in b.holds && !b.holds[hold].status.Active? <==> hold in l'.ended;
    if entry.Some? && hold in l.open {
      ClosedBy(l, entry.value, hold);
    }
  }

  // Releasing a hold gives back what taking it took: its seats are free, with nothing of the hold left on
  // them, and everything else is as it was.
  lemma ReleaseUndoesHold(db: Db, h: Hold, now: Time, db1: Db, db2: Db)
    requires h.status.Active?
    requires HoldTx(db, h, now) == Commit(db1) && ReleaseTx(db1, h, h.user) == Commit(db2)
    ensures db2.seats.Keys == db.seats.Keys
    ensures forall r :: r in db.seats ==>
              if r in Refs(h)
              then
                && Takeable(db.seats[r], now)
                && db2.seats[r] == FreeSeat(db.seats[r]).(version := db.seats[r].version + 2)
              else db2.seats[r] == db.seats[r]
    ensures db2.holds == db.holds[h.id := h.(status := Released)]
    ensures db2.bookings == db.bookings && db2.outbox == db.outbox
    ensures db2.audits == db.audits + multiset{SeatReleased(h.id, Manual)}
  {
    HoldTxEffect(db, h, now, db1);
    FreeHeldEffect(db1.seats, h);
  }

  // ---------------------------------------------------------------- what the ledger allows, the database does

  // A hold is stored if and only if the ledger can enter it: every seat there once, and free or past its
  // deadline; and no index stands in the way.
  lemma HoldTxExactly(db: Db, h: Hold, now: Time)
    requires SeatsOk(db)
    ensures HoldTx(db, h, now).Commit? <==>
              HoldIndexFree(db, h) && |Refs(h)| == |h.seats| && CanEnter(Abstract(db), TakeEntry(h, now))
  {
    var hit := Matching(db.seats, Refs(h), s => Takeable(s, now));
    RefsSize(h);
    SubsetSize(hit, Refs(h));
    assert PlacesOf(db.seats).Keys == db.seats.Keys;
    forall r | r in db.seats
      ensures var p := PlacesOf(db.seats)[r]; Takeable(db.seats[r], now) <==> p.Free? || (p.Held? && p.deadline <= now)
    {
      assert SeatOk(db, r);
    }
    assert hit == Refs(h) <==> Refs(h) <= db.seats.Keys && forall r :: r in Refs(h) ==> Takeable(db.seats[r], now);
  }

  // A hold is released if and only if it is the user's and open, whatever has become of its seats.
  lemma ReleaseTxExactly(db: Db, h: Hold, user: Id)
    requires h.id in db.holds
    ensures ReleaseTx(db, h, user).Commit? <==>
              db.holds[h.id].user == user && CanEnter(Abstract(db), GiveUp(h.id))
  {
  }

  // A hold expires if and only if it is open and its time is up.
  lemma ExpireTxExactly(db: Db, h: Hold, now: Time)
    requires h.id in db.holds
    ensures ExpireTx(db, h, now) != db <==> CanEnter(Abstract(db), GiveUp(h.id)) && db.holds[h.id].expiresAt <= now
  {
    if Claimable(db, h, now) {
      assert ExpireTx(db, h, now).holds[h.id].status.Expired?;
    }
  }

  // A hold is sold if and only if it is the user's and the ledger can enter the sale: every seat still held
  // for it, with its deadline ahead; and no index stands in the way.
  lemma ConfirmTxExactly(db: Db, h: Hold, user: Id, b: Booking, event: Id, at: Time)
    requires SeatsOk(db) && HoldsOk(db) && Known(db, h) && b.id !in db.bookings
    ensures ConfirmTx(db, h, user, b, event, at).Commit? <==>
              && h.user == user && CanEnter(Abstract(db), Sell(h.id, b.id, at))
              && BookingIndexFree(db, b) && event !in db.outbox
  {
    var hit, places := Matching(db.seats, Refs(h), s => Confirmable(s, h.id, user, at)), PlacesOf(db.seats);
    assert HoldOk(db, h.id) && Refs(h) == Refs(db.holds[h.id]) && places.Keys == db.seats.Keys;
    SubsetSize(hit, Refs(h));
    forall r | r in db.seats
      ensures places[r] != Sold(b.id)
      ensures r in Refs(h) && h.user == user ==>
                (Confirmable(db.seats[r], h.id, user, at) <==>
                  places[r].Held? && places[r].hold == h.id && at < places[r].deadline)
      ensures r in Refs(h) && places[r].Held? && places[r].hold == h.id ==> places[r].deadline == h.expiresAt
    {
      assert SeatOk(db, r);
    }
    assert hit == Refs(h) <==> forall r :: r in Refs(h) ==> Confirmable(db.seats[r], h.id, user, at);
    assert SeatRef(h.showtime, h.seats[0]) in Refs(h);
  }
}
