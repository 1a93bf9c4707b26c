// Every step of every request keeps the database invariant, and what the requests know stays true.
//
// Nothing here depends on clock readings or Redis answers: each may be anything at any step.
module ProtocolInvariant {
  import opened Domain
  import opened Database
  import opened StoreInvariant
  import opened Money
  import opened Sorting
  import opened Protocol

  // ---------------------------------------------------------------- what a request knows

  predicate PreparedFor(call: Call, h: Hold) {
    && call.CreateHold?
    && h.user == call.user && h.showtime == call.showtime && h.seats == call.seats && h.key == call.key
    && h.status.Active? && FewSeats(h.seats)
  }

  ghost predicate KnownBy(db: Db, user: Id, hold: Id, h: Hold) {
    Known(db, h) && h.id == hold && h.user == user
  }

  ghost predicate Ended(db: Db, h: Hold) {
    h.id in db.holds && db.holds[h.id] == h && !h.status.Active?
  }

  // The sweep is past this hold.
  ghost predicate Passed(w: Sweep, k: Id)
    requires w.next <= |w.due|
  {
    exists i :: 0 <= i < w.next && w.due[i].id == k
  }

  ghost predicate SweepOk(db: Db, w: Sweep) {
    && w.next <= |w.due|
    && (forall i :: 0 <= i < |w.due| ==> Known(db, w.due[i]) && w.due[i].expiresAt <= w.now)
    && (forall i, j :: 0 <= i < j < |w.due| ==> w.due[i].id != w.due[j].id)
    && (forall i :: 0 <= i < w.next ==>
          w.due[i].id in w.failed || !db.holds[w.due[i].id].status.Active?)
    && (forall k :: k in w.counted ==> HasStatus(db, k, Expired) && Passed(w, k))
    && w.processed == |w.counted|
  }

  ghost predicate AtItem(db: Db, w: Sweep) {
    SweepOk(db, w) && w.next < |w.due| && HasStatus(db, w.due[w.next].id, Expired)
  }

  // Three refusals speak of stored documents: that the key is spent on another request, that the hold is
  // another user's, and that the seats are not seats of the showtime. That is so, and stays so. Seats that
  // cannot be resolved are never reported: a stored hold has its seats. The others speak of the moment.
  ghost predicate RejectionOk(db: Db, call: Call, code: Code) {
    match code
    case KeyReused =>
      || (call.CreateHold? && exists k :: IsHoldFor(db, k, call.user, call.key)
                                && !SameRequest(db.holds[k], call.showtime, call.seats))
      || (call.Confirm? && exists k :: IsBookingFor(db, k, call.user, call.key) && db.bookings[k].hold != call.hold)
    case Forbidden =>
      (call.ReleaseHold? || call.Confirm?) && call.hold in db.holds && db.holds[call.hold].user != call.user
    case HoldNotFound => call.ReleaseHold? || call.Confirm?
    case HoldExpired => call.Confirm?
    case HoldInvalid => false
    case BookingConfirmationFailed => call.Confirm?
    case InvalidSeats =>
      call.CreateHold? && (!FewSeats(call.seats) || |SeatsAsked(db, call)| != |call.seats|)
    case ShowtimeUnavailable => call.CreateHold?
    case SeatUnavailable => call.CreateHold?
    case HoldCreationFailed => call.CreateHold?
    case LockServiceUnavailable => call.CreateHold? || call.Confirm?
    case Internal => true
  }

  // The seats of a request that the showtime has.
  function SeatsAsked(db: Db, call: Call): set<SeatRef>
    requires call.CreateHold?
  {
    set s | s in call.seats && SeatRef(call.showtime, s) in db.seats.Keys :: SeatRef(call.showtime, s)
  }

  ghost predicate AnswerOk(db: Db, call: Call, a: Answer) {
    match a
    case HoldMade(h, _) =>
      call.CreateHold? && Known(db, h) && h.user == call.user && h.key == call.key
      && SameRequest(h, call.showtime, call.seats)
    case HoldGivenUp(h) =>
      call.ReleaseHold? && Ended(db, h) && h.id == call.hold && h.user == call.user
    case BookingMade(b, existing) =>
      call.Confirm? && b.id in db.bookings && db.bookings[b.id] == b && b.hold == call.hold && b.user == call.user
      && (!existing ==> b.key == call.key)
    case Swept(w) =>
      call.ExpireDueHolds? && SweepOk(db, w) && w.next == |w.due|
    case Rejected(code) => RejectionOk(db, call, code)
  }

  ghost predicate CreateOk(db: Db, call: Call, pc: Pc)
    requires call.CreateHold?
  {
    match pc
    case CLookup => true
    case CClock => FewSeats(call.seats)
    case CPrepare(_) => FewSeats(call.seats)
    case CAcquire(h, _) => PreparedFor(call, h)
    case CInsert(h, _) => PreparedFor(call, h)
    case CUndo(h, _) => PreparedFor(call, h)
    case CRecover => true
    case Done(a) => AnswerOk(db, call, a)
    case _ => false
  }

  ghost predicate ReleaseOk(db: Db, call: Call, pc: Pc)
    requires call.ReleaseHold?
  {
    match pc
    case RLoad => true
    case RCommit(h) => KnownBy(db, call.user, call.hold, h)
    case RReload(h) => KnownBy(db, call.user, call.hold, h)
    case RUnlock(h) => KnownBy(db, call.user, call.hold, h) && Ended(db, h)
    case Done(a) => AnswerOk(db, call, a)
    case _ => false
  }

  ghost predicate ConfirmOk(db: Db, call: Call, pc: Pc)
    requires call.Confirm?
  {
    match pc
    case FByKey => true
    case FByHold => true
    case FLoad => true
    case FClock(h) => KnownBy(db, call.user, call.hold, h) && (h.status.Active? || Ended(db, h))
    case FVerify(h) => KnownBy(db, call.user, call.hold, h)
    case FSeats(h) => KnownBy(db, call.user, call.hold, h)
    case FTxClock(h, d, _) => KnownBy(db, call.user, call.hold, h) && DraftFor(db, h, d) && d.key == call.key
    case FCommit(h, d, _, _) => KnownBy(db, call.user, call.hold, h) && DraftFor(db, h, d) && d.key == call.key
    case FReloadHold(h, _) => KnownBy(db, call.user, call.hold, h)
    case FReloadKey(h, _) => KnownBy(db, call.user, call.hold, h)
    case FUnlock(h, d) =>
      && KnownBy(db, call.user, call.hold, h) && !db.holds[h.id].status.Active?
      && AnswerOk(db, call, BookingMade(d, false))
    case Done(a) => AnswerOk(db, call, a)
    case _ => false
  }

  ghost predicate ExpireOk(db: Db, call: Call, pc: Pc)
    requires call.ExpireDueHolds?
  {
    match pc
    case SClock => true
    case SFetch(_) => true
    case SItem(w) => SweepOk(db, w)
    case SCheck(w) => AtItem(db, w)
    case SUnlock(w) => AtItem(db, w)
    case Done(a) => AnswerOk(db, call, a)
    case _ => false
  }

  ghost predicate PcOk(db: Db, call: Call, pc: Pc) {
    match call
    case CreateHold(_, _, _, _) => CreateOk(db, call, pc)
    case ReleaseHold(_, _) => ReleaseOk(db, call, pc)
    case Confirm(_, _, _) => ConfirmOk(db, call, pc)
    case ExpireDueHolds(_) => ExpireOk(db, call, pc)
  }

  // The holds a sweep has expired and counted, or is about to count.
  function Claims(pc: Pc): set<Id> {
    match pc
    case SItem(w) => w.counted
    case SCheck(w) => w.counted + if w.next < |w.due| then {w.due[w.next].id} else {}
    case SUnlock(w) => w.counted + if w.next < |w.due| then {w.due[w.next].id} else {}
    case Done(Swept(w)) => w.counted
    case _ => {}
  }

  ghost predicate ProcsOk(db: Db, procs: map<nat, Proc>) {
    forall p :: p in procs ==> PcOk(db, procs[p].call, procs[p].pc)
  }

  ghost predicate ClaimsDisjoint(procs: map<nat, Proc>) {
    forall p, q :: p in procs && q in procs && p != q ==> Claims(procs[p].pc) !! Claims(procs[q].pc)
  }

  ghost predicate Inv(s: State) {
    DbInv(s.db) && ProcsOk(s.db, s.procs) && ClaimsDisjoint(s.procs)
  }

  // What a request has learnt stays true, whatever the others do.
  lemma PcOkStable(a: Db, b: Db, call: Call, pc: Pc)
    requires Evolves(a, b) && PcOk(a, call, pc)
    ensures PcOk(b, call, pc)
  {
    match call
    case CreateHold(_, _, _, _) =>
    case ReleaseHold(_, _) =>
    case Confirm(_, _, _) =>
    case ExpireDueHolds(_) =>
      match pc
      case SItem(w) => SweepStable(a, b, w);
      case SCheck(w) => SweepStable(a, b, w);
      case SUnlock(w) => SweepStable(a, b, w);
      case Done(Swept(w)) => SweepStable(a, b, w);
      case _ =>
  }

  lemma SweepStable(a: Db, b: Db, w: Sweep)
    requires Evolves(a, b) && SweepOk(a, w)
    ensures SweepOk(b, w)
  {
  }

  // ---------------------------------------------------------------- each request keeps the invariant

  ghost predicate IdsOk(db: Db) {
    && (forall k :: k in db.holds ==> db.holds[k].id == k)
    && (forall k :: k in db.bookings ==> db.bookings[k].id == k)
  }

  lemma InvIds(db: Db)
    requires HoldsOk(db) && BookingsOk(db)
    ensures IdsOk(db)
  {
    forall k | k in db.holds ensures db.holds[k].id == k {
      assert HoldOk(db, k);
    }
    forall k | k in db.bookings ensures db.bookings[k].id == k {
      assert BookingOk(db, k);
    }
  }

  // The unique indexes make the document that a query finds the only one that matches.

  lemma StoredHoldIsFound(db: Db, user: Id, key: Id, k: Id)
    requires IndexesOk(db) && IsHoldFor(db, k, user, key)
    ensures FindHold(db, user, key) == Some(db.holds[k])
    ensures forall j :: IsHoldFor(db, j, user, key) ==> j == k
  {
    forall j | IsHoldFor(db, j, user, key) ensures j == k {
      assert SameHoldKey(db.holds[j], db.holds[k]);
    }
  }

  lemma BookingOfHoldIsFound(db: Db, user: Id, hold: Id, k: Id)
    requires IndexesOk(db) && IsBookingOf(db, k, user, hold)
    ensures FindBookingOf(db, user, hold) == Some(db.bookings[k])
    ensures forall j :: j in db.bookings && db.bookings[j].hold == hold ==> j == k
  {
    forall j | j in db.bookings && db.bookings[j].hold == hold ensures j == k {
      assert db.bookings[j].hold == db.bookings[k].hold;
    }
  }

  lemma BookingForKeyIsFound(db: Db, user: Id, key: Id, k: Id)
    requires IndexesOk(db) && IsBookingFor(db, k, user, key)
    ensures FindBookingFor(db, user, key) == Some(db.bookings[k])
    ensures forall j :: IsBookingFor(db, j, user, key) ==> j == k
  {
    forall j | IsBookingFor(db, j, user, key) ensures j == k {
      assert SameBookingKey(db.bookings[j], db.bookings[k]);
    }
  }

  lemma EvolvesReflexive(db: Db)
    ensures Evolves(db, db)
  {
  }

  // What the database makes of a step: it moves on as the invariant wants, or stays as it is.
  ghost predicate StepOk(db: Db, call: Call, next: (Db, Pc)) {
    Evolves(db, next.0) && PcOk(next.0, call, next.1)
  }

  lemma CreateStepOk(ttl: Time, db: Db, call: Call, pc: Pc, input: Input)
    requires call.CreateHold? && IdsOk(db) && CreateOk(db, call, pc) && !pc.Done? && !pc.CInsert?
    ensures AdvanceCreate(ttl, db, call, pc, input).0 == db
    ensures CreateOk(db, call, AdvanceCreate(ttl, db, call, pc, input).1)
  {
    if pc.CPrepare? {
      FoundIsAsked(db, call, NewHold(call, pc.now, ttl, input.id, input.token));
    }
  }

  lemma FoundIsAsked(db: Db, call: Call, h: Hold)
    requires call.CreateHold? && h.showtime == call.showtime && h.seats == call.seats
    ensures Found(db, h) == SeatsAsked(db, call)
  {
  }

  lemma InsertNext(ttl: Time, db: Db, call: Call, h: Hold, now: Time, input: Input)
    requires PreparedFor(call, h)
    ensures var next := AdvanceCreate(ttl, db, call, CInsert(h, now), input);
            (next.0 == db || HoldTx(db, h, now) == Commit(next.0)) && CreateOk(next.0, call, next.1)
  {
    if input.reachable && HoldTx(db, h, now).Commit? {
      HoldTxEffect(db, h, now, HoldTx(db, h, now).db);
    }
  }

  lemma InsertStepOk(ttl: Time, db: Db, call: Call, h: Hold, now: Time, input: Input)
    requires DbInv(db) && PreparedFor(call, h)
    ensures var next := AdvanceCreate(ttl, db, call, CInsert(h, now), input);
            DbInv(next.0) && StepOk(db, call, next)
  {
    InsertNext(ttl, db, call, h, now, input);
    var next := AdvanceCreate(ttl, db, call, CInsert(h, now), input);
    if next.0 == db {
      EvolvesReflexive(db);
    } else {
      HoldTxPreserves(db, h, now, next.0);
    }
  }

  lemma ReleaseStepOk(db: Db, call: Call, pc: Pc, input: Input)
    requires call.ReleaseHold? && IdsOk(db) && ReleaseOk(db, call, pc) && !pc.Done? && !pc.RCommit?
    ensures AdvanceRelease(db, call, pc, input).0 == db
    ensures ReleaseOk(db, call, AdvanceRelease(db, call, pc, input).1)
  {
  }

  lemma GiveUpNext(db: Db, call: Call, h: Hold, input: Input)
    requires call.ReleaseHold? && KnownBy(db, call.user, call.hold, h)
    ensures var next := AdvanceRelease(db, call, RCommit(h), input);
            (next.0 == db || ReleaseTx(db, h, call.user) == Commit(next.0)) && ReleaseOk(next.0, call, next.1)
  {
  }

  lemma GiveUpStepOk(db: Db, call: Call, h: Hold, input: Input)
    requires call.ReleaseHold? && DbInv(db) && KnownBy(db, call.user, call.hold, h)
    ensures var next := AdvanceRelease(db, call, RCommit(h), input);
            DbInv(next.0) && StepOk(db, call, next)
  {
    GiveUpNext(db, call, h, input);
    var next := AdvanceRelease(db, call, RCommit(h), input);
    if next.0 == db {
      EvolvesReflexive(db);
    } else {
      ReleaseTxPreserves(db, h, call.user, next.0);
    }
  }

  lemma DraftOk(db: Db, call: Call, h: Hold, order: seq<SeatRef>, id: Id, number: Id)
    requires call.Confirm? && h.user == call.user
    requires Enumerates(order, Found(db, h)) && |order| == |h.seats|
    ensures DraftFor(db, h, Draft(db, call, h, order, id, number))
  {
    var raw := LinesOf(db.seats, order);
    var lines := Sort(raw, LabelLe);
    SortKeepsAmount(raw);
    assert forall l :: l in lines <==> l in raw by {
      assert forall l :: l in lines <==> l in multiset(lines);
      assert forall l :: l in raw <==> l in multiset(raw);
    }
    EnumeratesSize(order, Found(db, h));
    RefsSize(h);
    SubsetSize(Found(db, h), Refs(h));
    RawLines(db.seats, h, order, lines);
    RawRefs(db.seats, h, order, lines);
    assert Draft(db, call, h, order, id, number).lines == lines;
  }

  lemma RawLines(seats: map<SeatRef, Seat>, h: Hold, order: seq<SeatRef>, lines: seq<Line>)
    requires forall r :: r in order <==> r in Refs(h)
    requires forall r :: r in order ==> r in seats
    requires forall l :: l in lines <==> l in LinesOf(seats, order)
    ensures forall l :: l in lines ==>
              var r := SeatRef(h.showtime, l.seat);
              r in Refs(h) && r in seats && l == LineOf(l.seat, seats[r])
  {
    forall l | l in lines
      ensures SeatRef(h.showtime, l.seat) in order && l == LineOf(l.seat, seats[SeatRef(h.showtime, l.seat)])
    {
      var i :| 0 <= i < |order| && LinesOf(seats, order)[i] == l;
      assert order[i] in order && order[i] in Refs(h);
    }
  }

  lemma RawRefs(seats: map<SeatRef, Seat>, h: Hold, order: seq<SeatRef>, lines: seq<Line>)
    requires forall r :: r in order <==> r in Refs(h)
    requires forall r :: r in order ==> r in seats
    requires forall l :: l in lines <==> l in LinesOf(seats, order)
    ensures (set l | l in lines :: SeatRef(h.showtime, l.seat)) == Refs(h)
  {
    RawLines(seats, h, order, lines);
    forall r | r in Refs(h) ensures exists l :: l in lines && SeatRef(h.showtime, l.seat) == r {
      var i :| 0 <= i < |order| && order[i] == r;
      assert LinesOf(seats, order)[i] in lines;
    }
  }

  lemma {:induction false} EnumeratesSize(order: seq<SeatRef>, refs: set<SeatRef>)
    requires Enumerates(order, refs)
    ensures |order| == |refs|
  {
    if order == [] {
      assert refs == {};
    } else {
      var last := order[|order| - 1];
      var rest := order[..|order| - 1];
      assert order == rest + [last];
      assert Enumerates(rest, refs - {last});
      EnumeratesSize(rest, refs - {last});
    }
  }

  predicate Resolves(pc: Pc) {
    pc.FByKey? || pc.FByHold? || pc.FReloadHold? || pc.FReloadKey?
  }

  lemma ResolveStepOk(db: Db, call: Call, pc: Pc, input: Input)
    requires call.Confirm? && IdsOk(db) && ConfirmOk(db, call, pc) && Resolves(pc)
    ensures AdvanceConfirm(db, call, pc, input).0 == db
    ensures ConfirmOk(db, call, AdvanceConfirm(db, call, pc, input).1)
  {
  }

  lemma ConfirmStepOk(db: Db, call: Call, pc: Pc, input: Input)
    requires call.Confirm? && IdsOk(db) && ConfirmOk(db, call, pc)
    requires !pc.Done? && !pc.FCommit? && !pc.FSeats? && !Resolves(pc)
    ensures AdvanceConfirm(db, call, pc, input).0 == db
    ensures ConfirmOk(db, call, AdvanceConfirm(db, call, pc, input).1)
  {
  }

  lemma AllSeatsFound(db: Db, h: Hold)
    requires Known(db, h) && HoldOk(db, h.id)
    ensures |Found(db, h)| == |h.seats|
  {
    assert Refs(h) == Refs(db.holds[h.id]);
    assert Found(db, h) == Refs(h);
  }

  lemma SeatsStepOk(db: Db, call: Call, h: Hold, input: Input)
    requires call.Confirm? && KnownBy(db, call.user, call.hold, h)
    requires ValidInput(db, call, FSeats(h), input) && HoldOk(db, h.id)
    ensures AdvanceConfirm(db, call, FSeats(h), input).0 == db
    ensures ConfirmOk(db, call, AdvanceConfirm(db, call, FSeats(h), input).1)
  {
    if input.reachable {
      AllSeatsFound(db, h);
      EnumeratesSize(input.order, Found(db, h));
      DraftOk(db, call, h, input.order, input.id, input.number);
    }
  }

  lemma BookNext(db: Db, call: Call, h: Hold, draft: Booking, event: Id, at: Time, input: Input)
    requires call.Confirm? && KnownBy(db, call.user, call.hold, h) && DraftFor(db, h, draft) && draft.key == call.key
    ensures var next := AdvanceConfirm(db, call, FCommit(h, draft, event, at), input);
            && (next.0 == db || ConfirmTx(db, h, call.user, draft, event, at) == Commit(next.0))
            && ConfirmOk(next.0, call, next.1)
  {
    if input.reachable && ConfirmTx(db, h, call.user, draft, event, at).Commit? {
      BookedIsKnown(db, call, h, draft, event, at, ConfirmTx(db, h, call.user, draft, event, at).db);
    }
  }

  lemma BookStepOk(db: Db, call: Call, h: Hold, draft: Booking, event: Id, at: Time, input: Input)
    requires call.Confirm? && DbInv(db) && KnownBy(db, call.user, call.hold, h)
    requires DraftFor(db, h, draft) && draft.key == call.key
    ensures var next := AdvanceConfirm(db, call, FCommit(h, draft, event, at), input);
            DbInv(next.0) && StepOk(db, call, next)
  {
    BookNext(db, call, h, draft, event, at, input);
    var next := AdvanceConfirm(db, call, FCommit(h, draft, event, at), input);
    if next.0 == db {
      EvolvesReflexive(db);
    } else {
      ConfirmTxPreserves(db, h, call.user, draft, event, at, next.0);
    }
  }

  lemma BookedIsKnown(db: Db, call: Call, h: Hold, draft: Booking, event: Id, at: Time, db': Db)
    requires call.Confirm? && KnownBy(db, call.user, call.hold, h) && DraftFor(db, h, draft) && draft.key == call.key
    requires ConfirmTx(db, h, call.user, draft, event, at) == Commit(db')
    ensures PcOk(db', call, FUnlock(h, draft))
  {
    ConfirmTxEffect(db, h, call.user, draft, event, at, db');
  }

  lemma SweepStepOk(db: Db, call: Call, pc: Pc, input: Input)
    requires call.ExpireDueHolds? && ExpireOk(db, call, pc) && !pc.Done? && !pc.SItem?
    requires ValidInput(db, call, pc, input)
    ensures AdvanceSweep(db, call, pc, input).0 == db
    ensures ExpireOk(db, call, AdvanceSweep(db, call, pc, input).1)
  {
    match pc
    case SFetch(now) =>
      if input.reachable {
        FetchedOk(db, now, call.limit, input.due);
      }
    case SCheck(w) =>
      SkippedItemOk(db, w);
    case SUnlock(w) =>
      SweepCountOk(db, w);
    case _ =>
  }

  lemma FetchedOk(db: Db, now: Time, limit: nat, due: seq<Hold>)
    requires IsDueQuery(db, now, limit, due)
    ensures SweepOk(db, Sweep(now, due, 0, {}, {}, 0))
  {
  }

  lemma SweepCountOk(db: Db, w: Sweep)
    requires AtItem(db, w)
    ensures SweepOk(db, Counted(w))
  {
    SkippedItemOk(db, w);
    CountOnce(w);
    var k := w.due[w.next].id;
    assert Counted(w).due[w.next].id == k;
    assert Passed(Counted(w), k);
    forall c | c in w.counted ensures Passed(Counted(w), c) {
      assert Passed(Skipped(w), c);
    }
  }

  lemma CountOnce(w: Sweep)
    requires w.next < |w.due| && forall k :: k in w.counted ==> Passed(w, k)
    requires forall i, j :: 0 <= i < j < |w.due| ==> w.due[i].id != w.due[j].id
    ensures w.due[w.next].id !in w.counted
    ensures |w.counted + {w.due[w.next].id}| == |w.counted| + 1
  {
    assert !Passed(w, w.due[w.next].id);
  }

  lemma SkipStepOk(db: Db, call: Call, w: Sweep, input: Input)
    requires call.ExpireDueHolds? && SweepOk(db, w)
    requires w.next < |w.due| ==> !input.reachable || !Claimable(db, w.due[w.next], w.now)
    ensures AdvanceSweep(db, call, SItem(w), input).0 == db
    ensures ExpireOk(db, call, AdvanceSweep(db, call, SItem(w), input).1)
  {
    if w.next < |w.due| {
      if input.reachable {
        SkippedItemOk(db, w);
        assert AdvanceSweep(db, call, SItem(w), input) == (db, SItem(Skipped(w)));
      } else {
        FailedItemOk(db, w);
        assert AdvanceSweep(db, call, SItem(w), input) == (db, SItem(Failed(w)));
      }
    }
  }

  lemma ItemNext(db: Db, call: Call, w: Sweep, input: Input)
    requires call.ExpireDueHolds? && SweepOk(db, w)
    ensures var next := AdvanceSweep(db, call, SItem(w), input);
            && (next.0 == db || (w.next < |w.due| && next.0 == ExpireTx(db, w.due[w.next], w.now)))
            && (Evolves(db, next.0) ==> ExpireOk(next.0, call, next.1))
  {
    var next := AdvanceSweep(db, call, SItem(w), input);
    if w.next < |w.due| && input.reachable && Claimable(db, w.due[w.next], w.now) {
      if Evolves(db, next.0) {
        ClaimedIsExpired(db, w);
      }
    } else {
      SkipStepOk(db, call, w, input);
    }
  }

  lemma ItemStepOk(db: Db, call: Call, w: Sweep, input: Input)
    requires call.ExpireDueHolds? && DbInv(db) && SweepOk(db, w)
    ensures var next := AdvanceSweep(db, call, SItem(w), input);
            DbInv(next.0) && StepOk(db, call, next)
  {
    ItemNext(db, call, w, input);
    var next := AdvanceSweep(db, call, SItem(w), input);
    if next.0 == db {
      EvolvesReflexive(db);
    } else {
      assert Known(db, w.due[w.next]);
      ExpireTxPreserves(db, w.due[w.next], w.now);
    }
  }

  lemma ClaimedIsExpired(db: Db, w: Sweep)
    requires SweepOk(db, w) && w.next < |w.due| && Claimable(db, w.due[w.next], w.now)
    requires Evolves(db, ExpireTx(db, w.due[w.next], w.now))
    ensures AtItem(ExpireTx(db, w.due[w.next], w.now), w)
  {
    PcOkStable(db, ExpireTx(db, w.due[w.next], w.now), ExpireDueHolds(0), SItem(w));
  }

  lemma SkippedItemOk(db: Db, w: Sweep)
    requires SweepOk(db, w) && w.next < |w.due|
    requires w.due[w.next].id in w.failed || !Claimable(db, w.due[w.next], w.now)
    ensures SweepOk(db, Skipped(w))
  {
    assert Known(db, w.due[w.next]);
    forall k | k in w.counted ensures Passed(Skipped(w), k) {
      assert Passed(w, k);
    }
  }

  lemma FailedItemOk(db: Db, w: Sweep)
    requires SweepOk(db, w) && w.next < |w.due|
    ensures SweepOk(db, Failed(w))
  {
    SkippedItemOk(db, w.(failed := w.failed + {w.due[w.next].id}));
  }

  // ---------------------------------------------------------------- every step keeps the invariant

  predicate Transacts(pc: Pc) {
    pc.CInsert? || pc.RCommit? || pc.FCommit? || pc.SItem?
  }

  lemma AdvanceOk(ttl: Time, db: Db, call: Call, pc: Pc, input: Input)
    requires DbInv(db) && PcOk(db, call, pc) && !pc.Done? && ValidInput(db, call, pc, input)
    ensures DbInv(Advance(ttl, db, call, pc, input).0)
    ensures StepOk(db, call, Advance(ttl, db, call, pc, input))
  {
    if Transacts(pc) {
      TransactStepOk(ttl, db, call, pc, input);
    } else {
      InvIds(db);
      QuietStepOk(ttl, db, call, pc, input);
      EvolvesReflexive(db);
    }
  }

  lemma TransactStepOk(ttl: Time, db: Db, call: Call, pc: Pc, input: Input)
    requires DbInv(db) && PcOk(db, call, pc) && ValidInput(db, call, pc, input) && Transacts(pc)
    ensures DbInv(Advance(ttl, db, call, pc, input).0)
    ensures StepOk(db, call, Advance(ttl, db, call, pc, input))
  {
    if pc.CInsert? || pc.RCommit? {
      HoldStepOk(ttl, db, call, pc, input);
    } else {
      EndStepOk(ttl, db, call, pc, input);
    }
  }

  lemma HoldStepOk(ttl: Time, db: Db, call: Call, pc: Pc, input: Input)
    requires DbInv(db) && PcOk(db, call, pc) && ValidInput(db, call, pc, input) && (pc.CInsert? || pc.RCommit?)
    ensures DbInv(Advance(ttl, db, call, pc, input).0)
    ensures StepOk(db, call, Advance(ttl, db, call, pc, input))
  {
    match pc
    case CInsert(h, now) => InsertStepOk(ttl, db, call, h, now, input);
    case RCommit(h) => GiveUpStepOk(db, call, h, input);
  }

  lemma EndStepOk(ttl: Time, db: Db, call: Call, pc: Pc, input: Input)
    requires DbInv(db) && PcOk(db, call, pc) && ValidInput(db, call, pc, input) && (pc.FCommit? || pc.SItem?)
    ensures DbInv(Advance(ttl, db, call, pc, input).0)
    ensures StepOk(db, call, Advance(ttl, db, call, pc, input))
  {
    match pc
    case FCommit(h, draft, event, at) => BookStepOk(db, call, h, draft, event, at, input);
    case SItem(w) => ItemStepOk(db, call, w, input);
  }

  lemma QuietStepOk(ttl: Time, db: Db, call: Call, pc: Pc, input: Input)
    requires IdsOk(db) && PcOk(db, call, pc) && !pc.Done? && ValidInput(db, call, pc, input) && !Transacts(pc)
    requires pc.FSeats? && call.Confirm? ==> HoldOk(db, pc.hold.id)
    ensures Advance(ttl, db, call, pc, input).0 == db
    ensures PcOk(db, call, Advance(ttl, db, call, pc, input).1)
  {
    match call
    case CreateHold(_, _, _, _) => CreateStepOk(ttl, db, call, pc, input);
    case ReleaseHold(_, _) => ReleaseStepOk(db, call, pc, input);
    case Confirm(_, _, _) =>
      if pc.FSeats? {
        SeatsStepOk(db, call, pc.hold, input);
      } else if Resolves(pc) {
        ResolveStepOk(db, call, pc, input);
      } else {
        ConfirmStepOk(db, call, pc, input);
      }
    case ExpireDueHolds(_) => SweepStepOk(db, call, pc, input);
  }

  lemma ProcsOkMoved(a: Db, b: Db, procs: map<nat, Proc>, pid: nat, p: Proc)
    requires ProcsOk(a, procs) && Evolves(a, b) && PcOk(b, p.call, p.pc)
    ensures ProcsOk(b, procs[pid := p])
  {
    forall q | q in procs && q != pid ensures PcOk(b, procs[q].call, procs[q].pc) {
      PcOkStable(a, b, procs[q].call, procs[q].pc);
    }
  }

  // A step claims at most one more hold, and that one has just left ACTIVE.
  lemma ClaimsGrow(ttl: Time, db: Db, call: Call, pc: Pc, input: Input)
    requires ValidInput(db, call, pc, input)
    ensures var next := Advance(ttl, db, call, pc, input).1;
            forall k :: k in Claims(next) && k !in Claims(pc) ==> HasStatus(db, k, Active)
  {
    match call
    case CreateHold(_, _, _, _) => CreateClaimsNothing(ttl, db, call, pc, input);
    case ReleaseHold(_, _) => ReleaseClaimsNothing(db, call, pc, input);
    case Confirm(_, _, _) => ConfirmClaimsNothing(db, call, pc, input);
    case ExpireDueHolds(_) => SweepClaims(db, call, pc, input);
  }

  lemma CreateClaimsNothing(ttl: Time, db: Db, call: Call, pc: Pc, input: Input)
    requires call.CreateHold?
    ensures Claims(AdvanceCreate(ttl, db, call, pc, input).1) == Claims(pc)
  {
  }

  lemma ReleaseClaimsNothing(db: Db, call: Call, pc: Pc, input: Input)
    requires call.ReleaseHold?
    ensures Claims(AdvanceRelease(db, call, pc, input).1) == Claims(pc)
  {
  }

  lemma ConfirmClaimsNothing(db: Db, call: Call, pc: Pc, input: Input)
    requires call.Confirm? && ValidInput(db, call, pc, input)
    ensures Claims(AdvanceConfirm(db, call, pc, input).1) == Claims(pc)
  {
  }

  lemma SweepClaims(db: Db, call: Call, pc: Pc, input: Input)
    requires call.ExpireDueHolds?
    ensures var next := AdvanceSweep(db, call, pc, input).1;
            forall k :: k in Claims(next) && k !in Claims(pc) ==> HasStatus(db, k, Active)
  {
  }

  lemma ClaimsExpired(db: Db, call: Call, pc: Pc)
    requires PcOk(db, call, pc)
    ensures forall k :: k in Claims(pc) ==> HasStatus(db, k, Expired)
  {
  }

  lemma InitInv(s: State)
    requires Init(s)
    ensures Inv(s)
  {
    InitialDbInv(s.db);
  }

  lemma MoveKeepsInv(s: State, pid: nat, input: Input, s': State)
    requires Inv(s) && Step(s, Move(pid, input), s')
    ensures Inv(s') && Evolves(s.db, s'.db)
  {
    var p := s.procs[pid];
    var next := Advance(s.ttl, s.db, p.call, p.pc, input);
    AdvanceOk(s.ttl, s.db, p.call, p.pc, input);
    ProcsOkMoved(s.db, next.0, s.procs, pid, Proc(p.call, next.1));
    ClaimsMoved(s, pid, input, s');
  }

  lemma ClaimsMoved(s: State, pid: nat, input: Input, s': State)
    requires ProcsOk(s.db, s.procs) && ClaimsDisjoint(s.procs) && Step(s, Move(pid, input), s')
    ensures ClaimsDisjoint(s'.procs)
  {
    var p := s.procs[pid];
    ClaimsGrow(s.ttl, s.db, p.call, p.pc, input);
    forall a | a in s.procs ensures forall k :: k in Claims(s.procs[a].pc) ==> HasStatus(s.db, k, Expired) {
      ClaimsExpired(s.db, s.procs[a].call, s.procs[a].pc);
    }
  }

  lemma StepKeepsInv(s: State, l: Label, s': State)
    requires Inv(s) && Step(s, l, s')
    ensures Inv(s') && Evolves(s.db, s'.db)
  {
    match l
    case Begin(pid, call) =>
      EvolvesReflexive(s.db);
      ProcsOkMoved(s.db, s.db, s.procs, pid, Proc(call, Start(call)));
    case Move(pid, input) =>
      MoveKeepsInv(s, pid, input, s');
    case Deliver =>
      OutboxTouchedPreserves(s.db, s'.db);
      forall q | q in s.procs ensures PcOk(s'.db, s.procs[q].call, s.procs[q].pc) {
        PcOkStable(s.db, s'.db, s.procs[q].call, s.procs[q].pc);
      }
  }
}
