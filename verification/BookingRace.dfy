// Two confirmations of one hold at the same time: one books, and the other may be told that the hold has expired.
//
// Runs.ExistingBookingExactly says when a confirmation is answered with an existing booking. A twin that looks
// for the booking before it is stored, and comes to its hold or to the hold's keys afterwards, is refused
// before its last query for it.
module BookingRace {
  import opened Domain
  import opened Database
  import opened StoreInvariant
  import opened Money
  import opened Sorting
  import opened RedisLock
  import opened Protocol
  import opened ProtocolInvariant
  import opened Timed
  import opened TimedRuns
  import opened Race

  // A confirmation that comes to verify keys that have been released is refused: also when it was its own
  // twin that has booked the hold and released them. Runs.LateConfirmIsRefused is about one that comes to
  // load the hold.
  lemma UnlockedHoldIsRefused(r: TimedRun, i: nat, pid: nat, h: Hold, input: Input)
    requires IsTimedRun(r) && i < |r.turns| && At(r.worlds[i], pid, FVerify(h))
    requires r.turns[i] == Act(Move(pid, input)) && NoLiveKey(r.worlds[i], h.id)
    ensures At(r.worlds[i + 1], pid, Done(Rejected(if input.redis.No? then HoldExpired else LockServiceUnavailable)))
  {
    PcOkInRun(r, i, pid);
    HasKeys(r, i, h);
    assert KeysOf(h)[0] in KeysOf(h) && !Owns(r.worlds[i].redis, KeysOf(h)[0], OwnerOf(h), r.worlds[i].clock);
    assert WorldStep(r.worlds[i], r.turns[i], r.worlds[i + 1]);
  }

  lemma HasKeys(r: TimedRun, i: nat, h: Hold)
    requires IsTimedRun(r) && i < |r.worlds| && Known(r.worlds[i].core.db, h)
    ensures |KeysOf(h)| > 0
  {
    DbInvInRun(r, i);
    assert HoldOk(r.worlds[i].core.db, h.id);
  }

  // ---------------------------------------------------------------- the race

  const BOOK: Call := Confirm(7, 100, 11)
  const LINE: Line := Line(2, "A1", 100)
  const DRAFT: Booking := Booking(60, 61, 100, 7, 1, [LINE], 100, 11)
  const GO: Input := Input(0, Yes, true, false, true, 60, 0, 61, 62, [SEAT], [])

  function Sold(): Db {
    Db(map[SEAT := Seat("A1", 100, Booked, None, None, None, Some(60), 2)], map[100 := FIRST.(status := Confirmed)],
       map[60 := DRAFT], multiset{BookingSuccess(60)}, map[62 := OutboxEvent(60, Pending, 0, 0, None)])
  }

  function Twins(a: Pc, b: Pc): map<nat, Proc> {
    Both(Done(HoldMade(FIRST, false)), Done(Rejected(SeatUnavailable)))[3 := Proc(BOOK, a)][4 := Proc(BOOK, b)]
  }

  function Stage(db: Db, a: Pc, b: Pc): World {
    World(State(TTL, db, Twins(a, b)), 0, LOCKS, map[100 := 1, 101 := 2])
  }

  lemma FirstMoves(r: TimedRun, db: Db, a: Pc, b: Pc, db': Db, a': Pc) returns (r': TimedRun)
    requires IsTimedRun(r) && Last(r) == Stage(db, a, b) && IsPlain(a)
    requires ValidInput(db, BOOK, a, GO) && Advance(TTL, db, BOOK, a, GO) == (db', a')
    ensures IsTimedRun(r') && Last(r') == Stage(db', a', b)
  {
    PlainStep(Stage(db, a, b), 3, GO, db', a');
    assert Moved(Stage(db, a, b), 3, db', a').core.procs == Twins(a', b);
    r' := Extend(r, Move(3, GO), Stage(db', a', b));
  }

  lemma SecondMoves(r: TimedRun, db: Db, a: Pc, b: Pc, b': Pc) returns (r': TimedRun)
    requires IsTimedRun(r) && Last(r) == Stage(db, a, b) && IsPlain(b)
    requires ValidInput(db, BOOK, b, GO) && Advance(TTL, db, BOOK, b, GO) == (db, b')
    ensures IsTimedRun(r') && Last(r') == Stage(db, a, b')
  {
    PlainStep(Stage(db, a, b), 4, GO, db, b');
    assert Moved(Stage(db, a, b), 4, db, b').core.procs == Twins(a, b');
    r' := Extend(r, Move(4, GO), Stage(db, a, b'));
  }

  lemma TwinsBegin() returns (r: TimedRun)
    ensures IsTimedRun(r) && Last(r) == Stage(Held(), FByKey, FByKey)
  {
    r := FirstIsStored();
    var w := Last(r);
    w := w.(core := w.core.(procs := w.core.procs[3 := Proc(BOOK, FByKey)]));
    r := Extend(r, Begin(3, BOOK), w);
    r := Extend(r, Begin(4, BOOK), Stage(Held(), FByKey, FByKey));
  }

  // Both look for a booking, by their key and by the hold, before there is one.
  lemma TwinsLook() returns (r: TimedRun)
    ensures IsTimedRun(r) && Last(r) == Stage(Held(), FLoad, FLoad)
  {
    r := TwinsBegin();
    r := FirstMoves(r, Held(), FByKey, FByKey, Held(), FByHold);
    r := FirstMoves(r, Held(), FByHold, FByKey, Held(), FLoad);
    r := SecondMoves(r, Held(), FLoad, FByKey, FByHold);
    r := SecondMoves(r, Held(), FLoad, FByHold, FLoad);
  }

  // The first goes on to its booking ...
  lemma FirstVerifies() returns (r: TimedRun)
    ensures IsTimedRun(r) && Last(r) == Stage(Held(), FSeats(FIRST), FLoad)
  {
    r := TwinsLook();
    r := FirstMoves(r, Held(), FLoad, FLoad, Held(), FClock(FIRST));
    r := FirstMoves(r, Held(), FClock(FIRST), FLoad, Held(), FVerify(FIRST));
    r := KeysAreVerified(r);
  }

  lemma KeysAreVerified(r: TimedRun) returns (r': TimedRun)
    requires IsTimedRun(r) && Last(r) == Stage(Held(), FVerify(FIRST), FLoad)
    ensures IsTimedRun(r') && Last(r') == Stage(Held(), FSeats(FIRST), FLoad)
  {
    OneSeat(FIRST);
    assert AllOwned(LOCKS, [SEAT], OwnerOf(FIRST), 0);
    assert Twins(FVerify(FIRST), FLoad)[3 := Proc(BOOK, FSeats(FIRST))] == Twins(FSeats(FIRST), FLoad);
    r' := Extend(r, Move(3, GO), Stage(Held(), FSeats(FIRST), FLoad));
  }

  lemma DraftIsMade()
    ensures Found(Held(), FIRST) == {SEAT} && Enumerates([SEAT], {SEAT})
    ensures Draft(Held(), BOOK, FIRST, [SEAT], 60, 61) == DRAFT
  {
    OneSeat(FIRST);
    assert LinesOf(Held().seats, [SEAT]) == [LINE];
    assert Sort([LINE], LabelLe) == [LINE];
    assert Sum([LINE]) == 100;
  }

  lemma FirstBooks()
    ensures ConfirmTx(Held(), FIRST, 7, DRAFT, 62, 0) == Commit(Sold())
  {
    OneSeat(FIRST);
    var hit := Matching(Held().seats, {SEAT}, s => Confirmable(s, 100, 7, 0));
    assert hit == {SEAT};
    assert Rewrite(Held().seats, hit, s => SellSeat(s, 60)) == Sold().seats;
  }

  lemma FirstPrepares() returns (r: TimedRun)
    ensures IsTimedRun(r) && Last(r) == Stage(Held(), FCommit(FIRST, DRAFT, 62, 0), FLoad)
  {
    r := FirstVerifies();
    DraftIsMade();
    r := FirstMoves(r, Held(), FSeats(FIRST), FLoad, Held(), FTxClock(FIRST, DRAFT, 62));
    r := FirstMoves(r, Held(), FTxClock(FIRST, DRAFT, 62), FLoad, Held(), FCommit(FIRST, DRAFT, 62, 0));
  }

  lemma FirstCommitsBooking() returns (r: TimedRun)
    ensures IsTimedRun(r) && Last(r) == Stage(Sold(), FUnlock(FIRST, DRAFT), FLoad)
  {
    r := FirstPrepares();
    FirstBooks();
    r := FirstMoves(r, Held(), FCommit(FIRST, DRAFT, 62, 0), FLoad, Sold(), FUnlock(FIRST, DRAFT));
  }

  // ... and the second comes to load the hold, which is now confirmed.
  lemma SecondIsTooLate() returns (r: TimedRun)
    ensures IsTimedRun(r) && Last(r) == Stage(Sold(), FUnlock(FIRST, DRAFT), Done(Rejected(HoldExpired)))
  {
    r := FirstCommitsBooking();
    var unlock, ended := FUnlock(FIRST, DRAFT), FIRST.(status := Confirmed);
    r := SecondMoves(r, Sold(), unlock, FLoad, FClock(ended));
    r := SecondMoves(r, Sold(), unlock, FClock(ended), Done(Rejected(HoldExpired)));
  }

  // The hold has not expired, and its user has just booked it.
  lemma ConfirmTwinIsRefused() returns (r: TimedRun, i: nat)
    ensures IsTimedRun(r) && i < |r.worlds|
    ensures At(r.worlds[i], 3, Done(BookingMade(DRAFT, false))) && At(r.worlds[i], 4, Done(Rejected(HoldExpired)))
    ensures r.worlds[i].core.procs[3].call == r.worlds[i].core.procs[4].call
    ensures r.worlds[i].clock < FIRST.expiresAt
  {
    r := SecondIsTooLate();
    var made, refused := Done(BookingMade(DRAFT, false)), Done(Rejected(HoldExpired));
    var w := Stage(Sold(), FUnlock(FIRST, DRAFT), refused);
    UnlockStep(w, 3, GO, FIRST, DRAFT);
    r := Extend(r, Move(3, GO), Unlocked(w, 3, FIRST, made));
    i := |r.worlds| - 1;
  }

  function Unlocked(w: World, pid: nat, h: Hold, pc: Pc): World
    requires pid in w.core.procs
  {
    Moved(w, pid, w.core.db, pc).(redis := Freed(w.redis, KeysOf(h), OwnerOf(h), w.clock))
  }

  lemma UnlockStep(w: World, pid: nat, input: Input, h: Hold, draft: Booking)
    requires pid in w.core.procs && w.core.procs[pid].call.Confirm? && w.core.procs[pid].pc == FUnlock(h, draft)
    ensures WorldStep(w, Act(Move(pid, input)), Unlocked(w, pid, h, Done(BookingMade(draft, false))))
  {
  }
}
