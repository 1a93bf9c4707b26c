// Every answer has its cause, over all runs: which step of a request refuses it and why, that what a request
// has done to the database is what it answers, and that requests come to an end.
module Answers {
  import opened Domain
  import opened Database
  import opened StoreInvariant
  import opened Ledger
  import opened Protocol
  import opened ProtocolInvariant
  import opened Runs

  // ---------------------------------------------------------------- why a request is refused

  // The query found the key spent on another request.
  ghost predicate SpentOnOther(db: Db, call: Call) {
    match call
    case CreateHold(user, showtime, seats, key) =>
      exists k :: IsHoldFor(db, k, user, key) && !SameRequest(db.holds[k], showtime, seats)
    case Confirm(user, hold, key) => exists k :: IsBookingFor(db, k, user, key) && db.bookings[k].hold != hold
    case _ => false
  }

  predicate OwnsOther(db: Db, call: Call)
    requires call.ReleaseHold? || call.Confirm?
  {
    call.hold in db.holds && db.holds[call.hold].user != call.user
  }

  // The first query of an operation, which reads before anything else is known.
  predicate AsksFirst(call: Call, pc: Pc) {
    || (pc.CLookup? && call.CreateHold? && FewSeats(call.seats))
    || pc.RLoad? || pc.FByKey? || pc.SFetch?
  }

  ghost predicate Reason(db: Db, call: Call, pc: Pc, input: Input, code: Code) {
    match code
    case InvalidSeats =>
      call.CreateHold? && ((pc.CLookup? && !FewSeats(call.seats))
        || (pc.CPrepare? && input.reachable && input.showtimeOpen && |SeatsAsked(db, call)| != |call.seats|))
    case KeyReused =>
      input.reachable && SpentOnOther(db, call)
      && (AsksFirst(call, pc) || pc.CRecover? || pc.FReloadKey?)
    case ShowtimeUnavailable => pc.CPrepare? && input.reachable && !input.showtimeOpen
    case LockServiceUnavailable => (pc.CAcquire? || pc.FVerify?) && input.redis.Down?
    case SeatUnavailable => (pc.CAcquire? && input.redis.No?) || (pc.CUndo? && pc.error.SeatMismatch?)
    case HoldCreationFailed =>
      || (pc.CUndo? && !pc.error.SeatMismatch? && !pc.error.DuplicateKey?)
      || (pc.CRecover? && !(input.reachable && call.CreateHold? && exists k :: IsHoldFor(db, k, call.user, call.key)))
    case HoldNotFound =>
      (pc.RLoad? || pc.FLoad?) && input.reachable && (call.ReleaseHold? || call.Confirm?) && call.hold !in db.holds
    case Forbidden =>
      (pc.RLoad? || pc.FLoad?) && input.reachable && (call.ReleaseHold? || call.Confirm?) && OwnsOther(db, call)
    case HoldExpired =>
      || (pc.FClock? && (!pc.hold.status.Active? || pc.hold.expiresAt <= input.time))
      || (pc.FVerify? && input.redis.No?)
      || (pc.FReloadKey? && (pc.error.HoldGone? || pc.error.SeatMismatch?)
          && !(input.reachable && SpentOnOther(db, call)))
    case HoldInvalid => false
    case BookingConfirmationFailed =>
      pc.FReloadKey? && (pc.error.DuplicateKey? || pc.error.StoreFailure?)
      && !(input.reachable && SpentOnOther(db, call))
    case Internal =>
      || (!input.reachable && (AsksFirst(call, pc) || pc.CPrepare? || pc.FByHold? || pc.FLoad? || pc.FSeats?))
      || (pc.RReload? && !(input.reachable && pc.hold.id in db.holds && !db.holds[pc.hold.id].status.Active?))
  }

  lemma CreateRefuses(ttl: Time, db: Db, call: Call, pc: Pc, input: Input, code: Code)
    requires call.CreateHold? && CreateOk(db, call, pc) && !pc.Done?
    requires SpentOnOther(db, call) <==>
               FindHold(db, call.user, call.key).Some?
               && !SameRequest(FindHold(db, call.user, call.key).value, call.showtime, call.seats)
    ensures AdvanceCreate(ttl, db, call, pc, input).1 == Done(Rejected(code)) <==> Reason(db, call, pc, input, code)
  {
    if pc.CPrepare? {
      FoundIsAsked(db, call, NewHold(call, pc.now, ttl, input.id, input.token));
    }
  }

  lemma ReleaseRefuses(db: Db, call: Call, pc: Pc, input: Input, code: Code)
    requires call.ReleaseHold? && ReleaseOk(db, call, pc) && !pc.Done?
    ensures AdvanceRelease(db, call, pc, input).1 == Done(Rejected(code)) <==> Reason(db, call, pc, input, code)
  {
  }

  lemma ConfirmRefuses(db: Db, call: Call, pc: Pc, input: Input, code: Code)
    requires call.Confirm? && ConfirmOk(db, call, pc) && !pc.Done? && ValidInput(db, call, pc, input)
    requires pc.FSeats? && input.reachable ==> |input.order| == |pc.hold.seats|
    requires SpentOnOther(db, call) <==>
               FindBookingFor(db, call.user, call.key).Some?
               && FindBookingFor(db, call.user, call.key).value.hold != call.hold
    ensures AdvanceConfirm(db, call, pc, input).1 == Done(Rejected(code)) <==> Reason(db, call, pc, input, code)
  {
  }

  lemma SweepRefuses(db: Db, call: Call, pc: Pc, input: Input, code: Code)
    requires call.ExpireDueHolds? && ExpireOk(db, call, pc) && !pc.Done?
    ensures AdvanceSweep(db, call, pc, input).1 == Done(Rejected(code)) <==> Reason(db, call, pc, input, code)
  {
  }

  lemma SpentHoldKey(db: Db, call: Call)
    requires call.CreateHold? && IndexesOk(db)
    ensures SpentOnOther(db, call) <==>
              FindHold(db, call.user, call.key).Some?
              && !SameRequest(FindHold(db, call.user, call.key).value, call.showtime, call.seats)
  {
    if k :| IsHoldFor(db, k, call.user, call.key) {
      StoredHoldIsFound(db, call.user, call.key, k);
    }
  }

  lemma SpentBookingKey(db: Db, call: Call)
    requires call.Confirm? && IndexesOk(db)
    ensures SpentOnOther(db, call) <==>
              FindBookingFor(db, call.user, call.key).Some?
              && FindBookingFor(db, call.user, call.key).value.hold != call.hold
  {
    if k :| IsBookingFor(db, k, call.user, call.key) {
      BookingForKeyIsFound(db, call.user, call.key, k);
    }
  }

  // The seats that a confirmation reads are the hold's seats.
  lemma AllSeatsRead(db: Db, call: Call, pc: Pc, input: Input)
    requires HoldsOk(db) && call.Confirm? && ConfirmOk(db, call, pc) && ValidInput(db, call, pc, input)
    ensures pc.FSeats? && input.reachable ==> |input.order| == |pc.hold.seats|
  {
    if pc.FSeats? && input.reachable {
      assert HoldOk(db, pc.hold.id);
      AllSeatsFound(db, pc.hold);
      EnumeratesSize(input.order, Found(db, pc.hold));
    }
  }

  lemma AdvanceRefuses(ttl: Time, db: Db, call: Call, pc: Pc, input: Input, code: Code)
    requires IndexesOk(db) && HoldsOk(db) && PcOk(db, call, pc) && ValidInput(db, call, pc, input) && !pc.Done?
    ensures Advance(ttl, db, call, pc, input).1 == Done(Rejected(code)) <==> Reason(db, call, pc, input, code)
  {
    match call
    case CreateHold(_, _, _, _) =>
      SpentHoldKey(db, call);
      CreateRefuses(ttl, db, call, pc, input, code);
    case ReleaseHold(_, _) =>
      ReleaseRefuses(db, call, pc, input, code);
    case Confirm(_, _, _) =>
      SpentBookingKey(db, call);
      AllSeatsRead(db, call, pc, input);
      ConfirmRefuses(db, call, pc, input, code);
    case ExpireDueHolds(_) =>
      SweepRefuses(db, call, pc, input, code);
  }

  ghost predicate RefusesAt(r: Run, i: nat, pid: nat, code: Code) {
    MovesAt(r, i, pid) && i < |r.states| && pid in r.states[i].procs
    && Reason(r.states[i].db, r.states[i].procs[pid].call, r.states[i].procs[pid].pc, r.labels[i].input, code)
  }

  lemma TurnRefuses(r: Run, i: nat, pid: nat, code: Code)
    requires IsRun(r) && i < |r.labels| && !Answered(r.states[i], pid, Rejected(code))
    ensures Answered(r.states[i + 1], pid, Rejected(code)) <==> RefusesAt(r, i, pid, code)
  {
    assert Step(r.states[i], r.labels[i], r.states[i + 1]);
    if MovesAt(r, i, pid) {
      MoveRefuses(r, i, pid, code);
    }
  }

  lemma MoveRefuses(r: Run, i: nat, pid: nat, code: Code)
    requires IsRun(r) && i < |r.labels| && MovesAt(r, i, pid) && CanMove(r.states[i], pid, r.labels[i].input)
    ensures var s, p := r.states[i], r.states[i].procs[pid];
            Advance(s.ttl, s.db, p.call, p.pc, r.labels[i].input).1 == Done(Rejected(code)) <==>
              RefusesAt(r, i, pid, code)
  {
    var s, p := r.states[i], r.states[i].procs[pid];
    RunInv(r, i);
    AdvanceRefuses(s.ttl, s.db, p.call, p.pc, r.labels[i].input, code);
  }

  ghost predicate WasRefused(r: Run, j: nat, pid: nat, code: Code) {
    exists i :: 0 <= i < j && RefusesAt(r, i, pid, code)
  }

  lemma WasRefusedThen(r: Run, j: nat, pid: nat, code: Code)
    ensures WasRefused(r, j + 1, pid, code) <==> WasRefused(r, j, pid, code) || RefusesAt(r, j, pid, code)
  {
  }

  lemma TurnKeepsRefusal(r: Run, j: nat, pid: nat, code: Code)
    requires IsRun(r) && j < |r.labels|
    requires Answered(r.states[j], pid, Rejected(code)) <==> WasRefused(r, j, pid, code)
    ensures Answered(r.states[j + 1], pid, Rejected(code)) <==> WasRefused(r, j + 1, pid, code)
  {
    WasRefusedThen(r, j, pid, code);
    if Answered(r.states[j], pid, Rejected(code)) {
      AnswersStay(r, j, j + 1, pid, Rejected(code));
    } else {
      TurnRefuses(r, j, pid, code);
    }
  }

  // A request is refused if and only if it has met a reason for that refusal.
  lemma {:induction false} RefusedExactly(r: Run, j: nat, pid: nat, code: Code)
    requires IsRun(r) && j < |r.states|
    ensures Answered(r.states[j], pid, Rejected(code)) <==> WasRefused(r, j, pid, code)
  {
    if j > 0 {
      RefusedExactly(r, j - 1, pid, code);
      TurnKeepsRefusal(r, j - 1, pid, code);
    }
  }

  // ---------------------------------------------------------------- where failed transactions come from

  // A request compensates for exactly the error of its own transaction.
  lemma UndoHasCause(r: Run, i: nat, pid: nat, h: Hold, error: TxError)
    requires IsRun(r) && i < |r.labels| && MovesAt(r, i, pid) && pid in r.states[i].procs
    requires pid in r.states[i + 1].procs && r.states[i + 1].procs[pid].pc == CUndo(h, error)
    ensures var pc := r.states[i].procs[pid].pc;
            && pc.CInsert? && pc.hold == h
            && error == if r.labels[i].input.reachable then AbortOf(HoldTx(r.states[i].db, h, pc.now)) else StoreFailure
  {
    PcOkInRun(r, i, pid);
    assert Step(r.states[i], r.labels[i], r.states[i + 1]);
    var p := r.states[i].procs[pid];
    UndoComesFromInsert(r.states[i].ttl, r.states[i].db, p.call, p.pc, r.labels[i].input, h, error);
  }

  function AbortOf(tx: Tx): TxError {
    if tx.Abort? then tx.error else StoreFailure
  }

  lemma UndoComesFromInsert(ttl: Time, db: Db, call: Call, pc: Pc, input: Input, h: Hold, error: TxError)
    requires PcOk(db, call, pc) && ValidInput(db, call, pc, input) && !pc.Done?
    requires Advance(ttl, db, call, pc, input).1 == CUndo(h, error)
    ensures pc.CInsert? && pc.hold == h
    ensures error == if input.reachable then AbortOf(HoldTx(db, h, pc.now)) else StoreFailure
  {
    match call
    case CreateHold(_, _, _, _) =>
    case ReleaseHold(_, _) =>
    case Confirm(_, _, _) =>
    case ExpireDueHolds(_) =>
  }

  // And a confirmation looks again for exactly that reason.
  lemma ReloadHasCause(r: Run, i: nat, pid: nat, h: Hold, error: TxError)
    requires IsRun(r) && i < |r.labels| && MovesAt(r, i, pid) && pid in r.states[i].procs
    requires pid in r.states[i + 1].procs && r.states[i + 1].procs[pid].pc == FReloadHold(h, error)
    ensures var p := r.states[i].procs[pid];
            && p.call.Confirm? && p.pc.FCommit? && p.pc.hold == h
            && error == if r.labels[i].input.reachable
                        then AbortOf(ConfirmTx(r.states[i].db, h, p.call.user, p.pc.draft, p.pc.event, p.pc.at))
                        else StoreFailure
  {
    PcOkInRun(r, i, pid);
    assert Step(r.states[i], r.labels[i], r.states[i + 1]);
    var p := r.states[i].procs[pid];
    ReloadComesFromCommit(r.states[i].ttl, r.states[i].db, p.call, p.pc, r.labels[i].input, h, error);
  }

  lemma ReloadComesFromCommit(ttl: Time, db: Db, call: Call, pc: Pc, input: Input, h: Hold, error: TxError)
    requires PcOk(db, call, pc) && ValidInput(db, call, pc, input) && !pc.Done?
    requires Advance(ttl, db, call, pc, input).1 == FReloadHold(h, error)
    ensures call.Confirm? && pc.FCommit? && pc.hold == h
    ensures error == if input.reachable then AbortOf(ConfirmTx(db, h, call.user, pc.draft, pc.event, pc.at))
                     else StoreFailure
  {
    match call
    case CreateHold(_, _, _, _) =>
    case ReleaseHold(_, _) =>
    case Confirm(_, _, _) =>
    case ExpireDueHolds(_) =>
  }

  // ---------------------------------------------------------------- holds are made for open showtimes

  function PreparedHold(pc: Pc): Option<Hold> {
    match pc
    case CAcquire(h, _) => Some(h)
    case CInsert(h, _) => Some(h)
    case CUndo(h, _) => Some(h)
    case _ => None
  }

  // The step in which the request found its showtime open and all its seats there, and drew the id.
  ghost predicate FoundOpen(r: Run, i: nat, pid: nat, h: Hold) {
    MovesAt(r, i, pid) && i < |r.states| && pid in r.states[i].procs
    && var call, pc, input := r.states[i].procs[pid].call, r.states[i].procs[pid].pc, r.labels[i].input;
       && call.CreateHold? && pc.CPrepare? && input.reachable && input.showtimeOpen && input.id == h.id
       && |SeatsAsked(r.states[i].db, call)| == |call.seats| && h.showtime == call.showtime && h.seats == call.seats
  }

  lemma NextPrepared(ttl: Time, db: Db, call: Call, pc: Pc, input: Input, h: Hold)
    requires PcOk(db, call, pc) && ValidInput(db, call, pc, input) && !pc.Done?
    requires PreparedHold(Advance(ttl, db, call, pc, input).1) == Some(h)
    ensures call.CreateHold? && (PreparedHold(pc) == Some(h) ||
              (pc.CPrepare? && input.reachable && input.showtimeOpen && input.id == h.id
               && |SeatsAsked(db, call)| == |call.seats| && h.showtime == call.showtime && h.seats == call.seats))
  {
    match call
    case CreateHold(_, _, _, _) =>
      if pc.CPrepare? {
        FoundIsAsked(db, call, NewHold(call, pc.now, ttl, input.id, input.token));
      }
    case ReleaseHold(_, _) =>
    case Confirm(_, _, _) =>
    case ExpireDueHolds(_) =>
  }

  lemma TurnPrepared(r: Run, i: nat, pid: nat, h: Hold)
    requires IsRun(r) && i < |r.labels| && pid in r.states[i + 1].procs
    requires PreparedHold(r.states[i + 1].procs[pid].pc) == Some(h)
    ensures (pid in r.states[i].procs && PreparedHold(r.states[i].procs[pid].pc) == Some(h)) || FoundOpen(r, i, pid, h)
  {
    var s := r.states[i];
    assert Step(s, r.labels[i], r.states[i + 1]);
    if MovesAt(r, i, pid) {
      PcOkInRun(r, i, pid);
      NextPrepared(s.ttl, s.db, s.procs[pid].call, s.procs[pid].pc, r.labels[i].input, h);
    }
  }

  lemma {:induction false} PreparedFoundOpen(r: Run, j: nat, pid: nat, h: Hold) returns (i: nat)
    requires IsRun(r) && j < |r.states| && pid in r.states[j].procs
    requires PreparedHold(r.states[j].procs[pid].pc) == Some(h)
    ensures i < j && FoundOpen(r, i, pid, h)
  {
    assert j > 0 by {
      assert r.states[0].procs == map[];
    }
    TurnPrepared(r, j - 1, pid, h);
    if FoundOpen(r, j - 1, pid, h) {
      i := j - 1;
    } else {
      i := PreparedFoundOpen(r, j - 1, pid, h);
    }
  }

  // Whoever takes seats has found the showtime open before, and every seat it takes there.
  lemma TakenWhenOpen(r: Run, k: nat, pid: nat, hold: Id) returns (i: nat)
    requires IsRun(r) && MovesAt(r, k, pid) && TakesAt(r, k, hold)
    ensures pid in r.states[k].procs && r.states[k].procs[pid].pc.CInsert?
    ensures i < k && FoundOpen(r, i, pid, r.states[k].procs[pid].pc.hold) && r.states[k].procs[pid].pc.hold.id == hold
  {
    i := PreparedFoundOpen(r, k, pid, r.states[k].procs[pid].pc.hold);
  }

  // ---------------------------------------------------------------- what is done is answered

  // Whoever takes seats is told so at once.
  lemma TakeIsAnswered(r: Run, k: nat, pid: nat, hold: Id)
    requires IsRun(r) && MovesAt(r, k, pid) && TakesAt(r, k, hold)
    ensures pid in r.states[k].procs && r.states[k].procs[pid].pc.CInsert? && r.states[k].procs[pid].pc.hold.id == hold
    ensures Answered(r.states[k + 1], pid, HoldMade(r.states[k].procs[pid].pc.hold, false))
  {
    assert Step(r.states[k], r.labels[k], r.states[k + 1]);
  }

  // Whoever sells a hold has the booking in hand, and is never told anything else.
  lemma SellIsAnswered(r: Run, k: nat, j: nat, pid: nat, hold: Id)
    requires IsRun(r) && MovesAt(r, k, pid) && SellsAt(r, k, hold) && k < j < |r.states|
    ensures pid in r.states[k].procs && r.states[k].procs[pid].pc.FCommit? && r.states[k].procs[pid].pc.hold.id == hold
    ensures HasBooked(r.states[j], pid, r.states[k].procs[pid].pc.draft)
  {
    assert Step(r.states[k], r.labels[k], r.states[k + 1]);
    BookedLasts(r, k + 1, j, pid, r.states[k].procs[pid].pc.draft);
  }

  lemma TurnKeepsBooked(r: Run, i: nat, pid: nat, b: Booking)
    requires IsRun(r) && i < |r.labels| && HasBooked(r.states[i], pid, b)
    ensures HasBooked(r.states[i + 1], pid, b)
  {
    PcOkInRun(r, i, pid);
    assert Step(r.states[i], r.labels[i], r.states[i + 1]);
  }

  lemma {:induction false} BookedLasts(r: Run, i: nat, j: nat, pid: nat, b: Booking)
    requires IsRun(r) && i <= j < |r.states| && HasBooked(r.states[i], pid, b)
    ensures HasBooked(r.states[j], pid, b)
  {
    if i < j {
      BookedLasts(r, i, j - 1, pid, b);
      TurnKeepsBooked(r, j - 1, pid, b);
    }
  }
}
