// What holds over whole runs, for every interleaving of any number of requests.
//
// Clock readings and Redis answers are arbitrary in these runs: none of the results trusts them.
module Runs {
  import opened Domain
  import opened Database
  import opened StoreInvariant
  import opened Ledger
  import opened Protocol
  import opened ProtocolInvariant

  datatype Run = Run(states: seq<State>, labels: seq<Label>)

  ghost predicate IsRun(r: Run) {
    && |r.states| == |r.labels| + 1
    && Init(r.states[0])
    && forall i {:trigger r.labels[i]} :: 0 <= i < |r.labels| ==> Step(r.states[i], r.labels[i], r.states[i + 1])
  }

  lemma {:induction false} RunInv(r: Run, i: nat)
    requires IsRun(r) && i < |r.states|
    ensures Inv(r.states[i])
  {
    if i == 0 {
      InitInv(r.states[0]);
    } else {
      RunInv(r, i - 1);
      StepKeepsInv(r.states[i - 1], r.labels[i - 1], r.states[i]);
    }
  }

  lemma RunStep(r: Run, i: nat)
    requires IsRun(r) && i < |r.labels|
    ensures Evolves(r.states[i].db, r.states[i + 1].db)
  {
    RunInv(r, i);
    StepKeepsInv(r.states[i], r.labels[i], r.states[i + 1]);
  }

  lemma {:induction false} RunEvolves(r: Run, i: nat, j: nat)
    requires IsRun(r) && i <= j < |r.states|
    ensures Evolves(r.states[i].db, r.states[j].db)
  {
    if i == j {
      EvolvesReflexive(r.states[i].db);
    } else {
      RunEvolves(r, i, j - 1);
      RunStep(r, j - 1);
      EvolvesTransitive(r.states[i].db, r.states[j - 1].db, r.states[j].db);
    }
  }

  // ---------------------------------------------------------------- safety

  // No seat is sold twice.
  lemma NoDoubleBooking(r: Run, i: nat, a: Id, b: Id)
    requires IsRun(r) && i < |r.states|
    requires a in r.states[i].db.bookings && b in r.states[i].db.bookings && a != b
    ensures BookingRefs(r.states[i].db.bookings[a]) !! BookingRefs(r.states[i].db.bookings[b])
  {
    BookingOkInRun(r, i, a);
    BookingOkInRun(r, i, b);
  }

  // A sold seat stays sold, to the same booking, and the booking stays as it was made.
  lemma SoldSeatStaysSold(r: Run, i: nat, j: nat, ref: SeatRef)
    requires IsRun(r) && i <= j < |r.states|
    requires ref in r.states[i].db.seats && r.states[i].db.seats[ref].status.Booked?
    ensures ref in r.states[j].db.seats && r.states[j].db.seats[ref].status.Booked?
    ensures r.states[i].db.seats[ref].bookingId.Some?
    ensures r.states[j].db.seats[ref].bookingId == r.states[i].db.seats[ref].bookingId
    ensures var b := r.states[i].db.seats[ref].bookingId.value;
            && b in r.states[i].db.bookings && ref in BookingRefs(r.states[i].db.bookings[b])
            && b in r.states[j].db.bookings && r.states[j].db.bookings[b] == r.states[i].db.bookings[b]
  {
    SeatsOkInRun(r, i);
    assert SeatOk(r.states[i].db, ref);
    RunEvolves(r, i, j);
  }

  // ---------------------------------------------------------------- refinement

  // What the ledger sees of a step: the four committing transactions, and nothing else.
  ghost function EntryOf(s: State, l: Label): Option<Entry> {
    if !(l.Move? && l.pid in s.procs && l.input.reachable) then None
    else
      var call := s.procs[l.pid].call;
      match s.procs[l.pid].pc
      case CInsert(h, now) =>
        if call.CreateHold? && HoldTx(s.db, h, now).Commit? then Some(TakeEntry(h, now)) else None
      case RCommit(h) =>
        if call.ReleaseHold? && ReleaseTx(s.db, h, call.user).Commit? then Some(GiveUp(h.id)) else None
      case FCommit(h, draft, event, at) =>
        if call.Confirm? && ConfirmTx(s.db, h, call.user, draft, event, at).Commit? then Some(Sell(h.id, draft.id, at))
        else None
      case SItem(w) =>
        if call.ExpireDueHolds? && w.next < |w.due| && Claimable(s.db, w.due[w.next], w.now)
        then Some(GiveUp(w.due[w.next].id)) else None
      case _ => None
  }

  // Every step of the system is one step of the ledger, or none.
  lemma RefinesLedger(s: State, l: Label, s': State)
    requires Inv(s) && Step(s, l, s')
    ensures Refines(s.db, s'.db, EntryOf(s, l))
  {
    match l
    case Begin(_, _) =>
    case Deliver => OutboxTouchedRefines(s.db, s'.db);
    case Move(pid, input) =>
      assert PcOk(s.db, s.procs[pid].call, s.procs[pid].pc);
      if Transacts(s.procs[pid].pc) {
        TransactRefines(s, pid, input, s');
      } else {
        QuietRefines(s, pid, input, s');
      }
  }

  lemma TransactRefines(s: State, pid: nat, input: Input, s': State)
    requires SeatsOk(s.db) && Step(s, Move(pid, input), s') && Transacts(s.procs[pid].pc)
    requires PcOk(s.db, s.procs[pid].call, s.procs[pid].pc)
    ensures Refines(s.db, s'.db, EntryOf(s, Move(pid, input)))
  {
    match s.procs[pid].pc
    case CInsert(h, now) => InsertRefines(s, pid, input, s', h, now);
    case RCommit(h) => GiveUpRefines(s, pid, input, s', h);
    case FCommit(h, draft, event, at) => SellRefines(s, pid, input, s', h, draft, event, at);
    case SItem(w) => ItemRefines(s, pid, input, s', w);
  }

  lemma QuietRefines(s: State, pid: nat, input: Input, s': State)
    requires Inv(s) && Step(s, Move(pid, input), s') && !Transacts(s.procs[pid].pc)
    ensures s'.db == s.db
  {
    var p := s.procs[pid];
    InvIds(s.db);
    QuietStepOk(s.ttl, s.db, p.call, p.pc, input);
  }

  lemma InsertRefines(s: State, pid: nat, input: Input, s': State, h: Hold, now: Time)
    requires SeatsOk(s.db) && Step(s, Move(pid, input), s')
    requires s.procs[pid].pc == CInsert(h, now) && PreparedFor(s.procs[pid].call, h)
    ensures Refines(s.db, s'.db, EntryOf(s, Move(pid, input)))
  {
    var tx := HoldTx(s.db, h, now);
    if input.reachable && tx.Commit? {
      HoldTxRefines(s.db, h, now, tx.db);
    }
  }

  lemma GiveUpRefines(s: State, pid: nat, input: Input, s': State, h: Hold)
    requires SeatsOk(s.db) && Step(s, Move(pid, input), s')
    requires s.procs[pid].pc == RCommit(h) && s.procs[pid].call.ReleaseHold? && Known(s.db, h)
    ensures Refines(s.db, s'.db, EntryOf(s, Move(pid, input)))
  {
    var tx := ReleaseTx(s.db, h, s.procs[pid].call.user);
    if input.reachable && tx.Commit? {
      ReleaseTxRefines(s.db, h, s.procs[pid].call.user, tx.db);
    }
  }

  lemma SellRefines(s: State, pid: nat, input: Input, s': State, h: Hold, draft: Booking, event: Id, at: Time)
    requires SeatsOk(s.db) && Step(s, Move(pid, input), s')
    requires s.procs[pid].pc == FCommit(h, draft, event, at) && s.procs[pid].call.Confirm? && Known(s.db, h)
    ensures Refines(s.db, s'.db, EntryOf(s, Move(pid, input)))
  {
    var user := s.procs[pid].call.user;
    var tx := ConfirmTx(s.db, h, user, draft, event, at);
    if input.reachable && tx.Commit? {
      ConfirmTxRefines(s.db, h, user, draft, event, at, tx.db);
    }
  }

  lemma ItemRefines(s: State, pid: nat, input: Input, s': State, w: Sweep)
    requires SeatsOk(s.db) && Step(s, Move(pid, input), s')
    requires s.procs[pid].pc == SItem(w) && s.procs[pid].call.ExpireDueHolds? && SweepOk(s.db, w)
    ensures Refines(s.db, s'.db, EntryOf(s, Move(pid, input)))
  {
    if w.next < |w.due| {
      ExpireTxRefines(s.db, w.due[w.next], w.now);
    }
  }

  lemma StepRefines(r: Run, k: nat)
    requires IsRun(r) && k < |r.labels|
    ensures Refines(r.states[k].db, r.states[k + 1].db, EntryOf(r.states[k], r.labels[k]))
  {
    RunInv(r, k);
    RefinesLedger(r.states[k], r.labels[k], r.states[k + 1]);
  }

  // What the invariant says in a run, part by part.

  lemma PcOkInRun(r: Run, i: nat, p: nat)
    requires IsRun(r) && i < |r.states| && p in r.states[i].procs
    ensures PcOk(r.states[i].db, r.states[i].procs[p].call, r.states[i].procs[p].pc)
  {
    RunInv(r, i);
  }

  lemma BookingOkInRun(r: Run, i: nat, b: Id)
    requires IsRun(r) && i < |r.states| && b in r.states[i].db.bookings
    ensures BookingOk(r.states[i].db, b)
  {
    RunInv(r, i);
  }

  lemma HoldOkInRun(r: Run, i: nat, k: Id)
    requires IsRun(r) && i < |r.states| && k in r.states[i].db.holds
    ensures HoldOk(r.states[i].db, k)
  {
    RunInv(r, i);
  }

  lemma IndexesOkInRun(r: Run, i: nat)
    requires IsRun(r) && i < |r.states|
    ensures IndexesOk(r.states[i].db)
  {
    RunInv(r, i);
  }

  lemma ClaimsInRun(r: Run, i: nat)
    requires IsRun(r) && i < |r.states|
    ensures ClaimsDisjoint(r.states[i].procs)
  {
    RunInv(r, i);
  }

  lemma SeatsOkInRun(r: Run, i: nat)
    requires IsRun(r) && i < |r.states|
    ensures SeatsOk(r.states[i].db)
  {
    RunInv(r, i);
  }

  // The ledger of a run: its initial ledger is free everywhere, and every step refines.
  lemma RunRefinesLedger(r: Run)
    requires IsRun(r)
    ensures var l := Abstract(r.states[0].db);
            l.open == map[] && l.ended == {} && forall p :: p in l.places ==> l.places[p].Free?
    ensures forall i :: 0 <= i < |r.labels| ==>
              Refines(r.states[i].db, r.states[i + 1].db, EntryOf(r.states[i], r.labels[i]))
  {
    forall i | 0 <= i < |r.labels|
      ensures Refines(r.states[i].db, r.states[i + 1].db, EntryOf(r.states[i], r.labels[i]))
    {
      StepRefines(r, i);
    }
  }

  // ---------------------------------------------------------------- responses and ledger steps

  ghost predicate TakesAt(r: Run, k: nat, hold: Id) {
    k < |r.labels| && k < |r.states| && EntryOf(r.states[k], r.labels[k]).Some?
    && EntryOf(r.states[k], r.labels[k]).value.Take? && EntryOf(r.states[k], r.labels[k]).value.hold == hold
  }

  ghost predicate SellsAt(r: Run, k: nat, hold: Id) {
    k < |r.labels| && k < |r.states| && EntryOf(r.states[k], r.labels[k]).Some?
    && EntryOf(r.states[k], r.labels[k]).value.Sell? && EntryOf(r.states[k], r.labels[k]).value.hold == hold
  }

  ghost predicate Answered(s: State, pid: nat, a: Answer) {
    pid in s.procs && s.procs[pid].pc == Done(a)
  }

  // The step that made pid's answer is a step of pid.
  lemma AnswerStep(s: State, l: Label, s': State, pid: nat, a: Answer)
    requires Step(s, l, s') && Answered(s', pid, a) && !Answered(s, pid, a)
    ensures l.Move? && l.pid == pid && pid in s.procs && !s.procs[pid].pc.Done?
  {
  }

  lemma FreshHoldComesFromInsert(s: State, pid: nat, input: Input, s': State, h: Hold)
    requires ProcsOk(s.db, s.procs) && Step(s, Move(pid, input), s') && Answered(s', pid, HoldMade(h, false))
    ensures s.procs[pid].pc.CInsert? && s.procs[pid].pc.hold == h
    ensures EntryOf(s, Move(pid, input)) == Some(TakeEntry(h, s.procs[pid].pc.now))
  {
    var p := s.procs[pid];
    assert PcOk(s.db, p.call, p.pc);
    NewHoldAnswer(s.ttl, s.db, p.call, p.pc, input, h);
  }

  // Which requests are answered with holds, and which with bookings.

  predicate GivesHold(pc: Pc) {
    pc.Done? && pc.answer.HoldMade?
  }

  predicate GivesBooking(pc: Pc) {
    pc.FUnlock? || (pc.Done? && pc.answer.BookingMade?)
  }

  lemma OnlyCreateGivesHold(ttl: Time, db: Db, call: Call, pc: Pc, input: Input)
    requires !call.CreateHold? && PcOk(db, call, pc) && ValidInput(db, call, pc, input) && !pc.Done?
    ensures !GivesHold(Advance(ttl, db, call, pc, input).1)
  {
    match call
    case ReleaseHold(_, _) =>
    case Confirm(_, _, _) =>
    case ExpireDueHolds(_) =>
  }

  lemma OnlyConfirmGivesBooking(ttl: Time, db: Db, call: Call, pc: Pc, input: Input)
    requires !call.Confirm? && PcOk(db, call, pc) && ValidInput(db, call, pc, input) && !pc.Done?
    ensures !GivesBooking(Advance(ttl, db, call, pc, input).1)
  {
    match call
    case CreateHold(_, _, _, _) =>
    case ReleaseHold(_, _) =>
    case ExpireDueHolds(_) =>
  }

  lemma NewHoldAnswer(ttl: Time, db: Db, call: Call, pc: Pc, input: Input, h: Hold)
    requires PcOk(db, call, pc) && ValidInput(db, call, pc, input) && !pc.Done?
    requires Advance(ttl, db, call, pc, input).1 == Done(HoldMade(h, false))
    ensures call.CreateHold? && pc.CInsert? && pc.hold == h && input.reachable && HoldTx(db, h, pc.now).Commit?
  {
    if !call.CreateHold? {
      OnlyCreateGivesHold(ttl, db, call, pc, input);
    }
  }

  // Every response "hold created" stands for exactly one Take on the ledger, of that hold and those seats.
  lemma {:induction false} CreatedHoldTookOnce(r: Run, i: nat, pid: nat, h: Hold) returns (k: nat)
    requires IsRun(r) && i < |r.states| && Answered(r.states[i], pid, HoldMade(h, false))
    ensures k < i && TakesAt(r, k, h.id) && MovesAt(r, k, pid)
    ensures EntryOf(r.states[k], r.labels[k]).value.refs == Refs(h)
    ensures EntryOf(r.states[k], r.labels[k]).value.deadline == h.expiresAt
    ensures forall m: nat :: m < |r.labels| && TakesAt(r, m, h.id) ==> m == k
  {
    assert i > 0 by {
      assert r.states[0].procs == map[];
    }
    if Answered(r.states[i - 1], pid, HoldMade(h, false)) {
      k := CreatedHoldTookOnce(r, i - 1, pid, h);
    } else {
      k := i - 1;
      HoldAnswerBorn(r, k, pid, h);
      forall m: nat | m < |r.labels| && TakesAt(r, m, h.id) ensures m == k {
        TakenOnce(r, k, m, h.id);
      }
    }
  }

  ghost predicate MovesAt(r: Run, k: nat, pid: nat) {
    k < |r.labels| && r.labels[k].Move? && r.labels[k].pid == pid
  }

  lemma HoldAnswerBorn(r: Run, k: nat, pid: nat, h: Hold)
    requires IsRun(r) && k < |r.labels|
    requires Answered(r.states[k + 1], pid, HoldMade(h, false)) && !Answered(r.states[k], pid, HoldMade(h, false))
    ensures TakesAt(r, k, h.id) && MovesAt(r, k, pid)
    ensures EntryOf(r.states[k], r.labels[k]).value.refs == Refs(h)
    ensures EntryOf(r.states[k], r.labels[k]).value.deadline == h.expiresAt
  {
    AnswerStep(r.states[k], r.labels[k], r.states[k + 1], pid, HoldMade(h, false));
    RunInv(r, k);
    FreshHoldComesFromInsert(r.states[k], pid, r.labels[k].input, r.states[k + 1], h);
  }

  // A hold is taken at most once in a run.
  lemma TakenOnce(r: Run, k: nat, m: nat, hold: Id)
    requires IsRun(r) && TakesAt(r, k, hold) && TakesAt(r, m, hold)
    ensures k == m
  {
    if k < m {
      TakenThenKnown(r, k, m, hold);
    } else if m < k {
      TakenThenKnown(r, m, k, hold);
    }
  }

  lemma TakenThenKnown(r: Run, k: nat, m: nat, hold: Id)
    requires IsRun(r) && TakesAt(r, k, hold) && k < m < |r.labels|
    ensures !TakesAt(r, m, hold)
  {
    StepRefines(r, k);
    assert hold in Abstract(r.states[k + 1].db).open;
    RunEvolves(r, k + 1, m);
    assert hold in r.states[m].db.holds;
    StepRefines(r, m);
  }

  ghost predicate HasBooked(s: State, pid: nat, b: Booking) {
    pid in s.procs && (s.procs[pid].pc == Done(BookingMade(b, false))
                       || (s.procs[pid].pc.FUnlock? && s.procs[pid].pc.draft == b))
  }

  lemma BookingComesFromCommit(s: State, l: Label, s': State, pid: nat, b: Booking)
    requires ProcsOk(s.db, s.procs) && Step(s, l, s') && HasBooked(s', pid, b) && !HasBooked(s, pid, b)
    ensures l.Move? && l.pid == pid && l.input.reachable && pid in s.procs
    ensures s.procs[pid].pc.FCommit? && s.procs[pid].pc.draft == b
    ensures EntryOf(s, l).Some? && EntryOf(s, l).value.Sell?
    ensures EntryOf(s, l).value.hold == b.hold && EntryOf(s, l).value.booking == b.id
  {
    if pid in s.procs && l.Move? && l.pid == pid {
      var p := s.procs[pid];
      assert PcOk(s.db, p.call, p.pc);
      NewBooking(s.ttl, s.db, p.call, p.pc, l.input, b);
    }
  }

  lemma NewBooking(ttl: Time, db: Db, call: Call, pc: Pc, input: Input, b: Booking)
    requires PcOk(db, call, pc) && ValidInput(db, call, pc, input)
    requires !(pc.FUnlock? && pc.draft == b)
    requires var next := Advance(ttl, db, call, pc, input).1;
             !pc.Done? && (next == Done(BookingMade(b, false)) || (next.FUnlock? && next.draft == b))
    ensures call.Confirm? && pc.FCommit? && pc.draft == b && b.hold == pc.hold.id && input.reachable
    ensures ConfirmTx(db, pc.hold, call.user, b, pc.event, pc.at).Commit?
  {
    if call.Confirm? {
      NewlyConfirmed(db, call, pc, input, b);
    } else {
      OnlyConfirmGivesBooking(ttl, db, call, pc, input);
    }
  }

  lemma NewlyConfirmed(db: Db, call: Call, pc: Pc, input: Input, b: Booking)
    requires call.Confirm? && ConfirmOk(db, call, pc) && ValidInput(db, call, pc, input) && !pc.Done?
    requires !(pc.FUnlock? && pc.draft == b)
    requires var next := AdvanceConfirm(db, call, pc, input).1;
             next == Done(BookingMade(b, false)) || (next.FUnlock? && next.draft == b)
    ensures pc.FCommit? && pc.draft == b && b.hold == pc.hold.id && input.reachable
    ensures ConfirmTx(db, pc.hold, call.user, b, pc.event, pc.at).Commit?
  {
  }

  // Every response "booking created" stands for exactly one Sell on the ledger, of that hold to that booking.
  lemma {:induction false} CreatedBookingSoldOnce(r: Run, i: nat, pid: nat, b: Booking) returns (k: nat)
    requires IsRun(r) && i < |r.states| && HasBooked(r.states[i], pid, b)
    ensures k < i && SellsAt(r, k, b.hold) && MovesAt(r, k, pid)
    ensures EntryOf(r.states[k], r.labels[k]).value.booking == b.id
    ensures forall m: nat :: m < |r.labels| && SellsAt(r, m, b.hold) ==> m == k
  {
    assert i > 0 by {
      assert r.states[0].procs == map[];
    }
    if HasBooked(r.states[i - 1], pid, b) {
      k := CreatedBookingSoldOnce(r, i - 1, pid, b);
    } else {
      k := i - 1;
      BookingBorn(r, k, pid, b);
      forall m: nat | m < |r.labels| && SellsAt(r, m, b.hold) ensures m == k {
        EndsOnce(r, k, m, b.hold);
      }
    }
  }

  lemma BookingBorn(r: Run, k: nat, pid: nat, b: Booking)
    requires IsRun(r) && k < |r.labels|
    requires HasBooked(r.states[k + 1], pid, b) && !HasBooked(r.states[k], pid, b)
    ensures SellsAt(r, k, b.hold) && MovesAt(r, k, pid)
    ensures EntryOf(r.states[k], r.labels[k]).value.booking == b.id
  {
    RunInv(r, k);
    BookingComesFromCommit(r.states[k], r.labels[k], r.states[k + 1], pid, b);
  }

  // ---------------------------------------------------------------- one winner

  // The step takes the hold out of ACTIVE.
  ghost predicate EndsAt(r: Run, k: nat, hold: Id) {
    k < |r.labels| && k + 1 < |r.states|
    && HasStatus(r.states[k].db, hold, Active) && hold in r.states[k + 1].db.holds
    && !r.states[k + 1].db.holds[hold].status.Active?
  }

  // A hold leaves ACTIVE by a GiveUp or a Sell of its own, never otherwise.
  lemma EndingEntry(r: Run, k: nat, hold: Id)
    requires IsRun(r) && k < |r.labels|
    ensures EndsAt(r, k, hold) <==>
              EntryOf(r.states[k], r.labels[k]) == Some(GiveUp(hold)) || SellsAt(r, k, hold)
  {
    StepRefines(r, k);
    EndsByEntry(r.states[k].db, r.states[k + 1].db, EntryOf(r.states[k], r.labels[k]), hold);
  }

  // The end states are final.
  lemma EndedStaysEnded(r: Run, i: nat, j: nat, hold: Id)
    requires IsRun(r) && i <= j < |r.states|
    requires hold in r.states[i].db.holds && !r.states[i].db.holds[hold].status.Active?
    ensures hold in r.states[j].db.holds && r.states[j].db.holds[hold] == r.states[i].db.holds[hold]
  {
    RunEvolves(r, i, j);
  }

  // Of all the confirmations, releases and expiries of a hold, at most one takes it out of ACTIVE.
  lemma OneWinner(r: Run, k: nat, m: nat, hold: Id)
    requires IsRun(r) && EndsAt(r, k, hold) && EndsAt(r, m, hold)
    ensures k == m
  {
    if k < m {
      EndedStaysEnded(r, k + 1, m, hold);
    } else if m < k {
      EndedStaysEnded(r, m + 1, k, hold);
    }
  }

  lemma EndsOnce(r: Run, k: nat, m: nat, hold: Id)
    requires IsRun(r) && SellsAt(r, k, hold) && SellsAt(r, m, hold)
    ensures k == m
  {
    EndingEntry(r, k, hold);
    EndingEntry(r, m, hold);
    OneWinner(r, k, m, hold);
  }

  // A seat that becomes free was held by the very hold that ended in that step: late work on one hold
  // never frees a seat that a later hold or a booking owns.
  lemma OnlyItsHoldFreesASeat(r: Run, k: nat, ref: SeatRef)
    requires IsRun(r) && k < |r.labels| && ref in r.states[k].db.seats && ref in r.states[k + 1].db.seats
    requires !r.states[k].db.seats[ref].status.Available? && r.states[k + 1].db.seats[ref].status.Available?
    ensures r.states[k].db.seats[ref].status.Locked? && r.states[k].db.seats[ref].holdId.Some?
    ensures var hold := r.states[k].db.seats[ref].holdId.value;
            EntryOf(r.states[k], r.labels[k]) == Some(GiveUp(hold)) && EndsAt(r, k, hold)
  {
    var a, b, entry := r.states[k].db, r.states[k + 1].db, EntryOf(r.states[k], r.labels[k]);
    assert SeatOk(a, ref) by { SeatsOkInRun(r, k); }
    assert SeatOk(b, ref) by { SeatsOkInRun(r, k + 1); }
    assert Refines(a, b, entry) by { StepRefines(r, k); }
    assert a.seats[ref].status.Locked? && a.seats[ref].holdId.Some?
        && entry == Some(GiveUp(a.seats[ref].holdId.value)) by {
      FreedPlace(a, b, entry, ref);
    }
    EndingEntry(r, k, r.states[k].db.seats[ref].holdId.value);
  }

  lemma FreedPlace(a: Db, b: Db, entry: Option<Entry>, ref: SeatRef)
    requires ref in a.seats && ref in b.seats && SeatOk(a, ref) && SeatOk(b, ref) && Refines(a, b, entry)
    requires !a.seats[ref].status.Available? && b.seats[ref].status.Available?
    ensures a.seats[ref].status.Locked? && a.seats[ref].holdId.Some? && entry == Some(GiveUp(a.seats[ref].holdId.value))
  {
    var l, l' := Abstract(a), Abstract(b);
    assert !l.places[ref].Free? && l'.places[ref].Free?;
    OnlyGiveUpFrees(l, entry.value, ref);
  }

  // ---------------------------------------------------------------- idempotency

  // All successful CreateHold responses to one user and key carry the same hold, and it is the only one stored.
  lemma OneHoldPerKey(r: Run, i: nat, p: nat, q: nat, a: Hold, b: Hold, ea: bool, eb: bool)
    requires IsRun(r) && i < |r.states|
    requires Answered(r.states[i], p, HoldMade(a, ea)) && Answered(r.states[i], q, HoldMade(b, eb))
    requires r.states[i].procs[p].call.CreateHold? && r.states[i].procs[q].call.CreateHold?
    requires r.states[i].procs[p].call.user == r.states[i].procs[q].call.user
    requires r.states[i].procs[p].call.key == r.states[i].procs[q].call.key
    ensures a.id == b.id && SameCore(a, b)
    ensures forall k :: k in r.states[i].db.holds && SameHoldKey(r.states[i].db.holds[k], a) ==> k == a.id
    ensures SameRequest(a, r.states[i].procs[p].call.showtime, r.states[i].procs[p].call.seats)
  {
    var s := r.states[i];
    PcOkInRun(r, i, p);
    PcOkInRun(r, i, q);
    IndexesOkInRun(r, i);
    assert SameHoldKey(s.db.holds[a.id], s.db.holds[b.id]);
    forall k | k in s.db.holds && SameHoldKey(s.db.holds[k], a) ensures k == a.id {
      assert SameHoldKey(s.db.holds[k], s.db.holds[a.id]);
    }
  }

  // All successful Confirm responses for one hold carry the same booking, and it is the hold's only one.
  lemma OneBookingPerHold(r: Run, i: nat, p: nat, q: nat, a: Booking, b: Booking, ea: bool, eb: bool)
    requires IsRun(r) && i < |r.states|
    requires Answered(r.states[i], p, BookingMade(a, ea)) && Answered(r.states[i], q, BookingMade(b, eb))
    requires r.states[i].procs[p].call.Confirm? && r.states[i].procs[q].call.Confirm?
    requires r.states[i].procs[p].call.hold == r.states[i].procs[q].call.hold
    ensures a == b && a.hold == r.states[i].procs[p].call.hold
    ensures forall k :: k in r.states[i].db.bookings && r.states[i].db.bookings[k].hold == a.hold ==> k == a.id
    ensures HasStatus(r.states[i].db, a.hold, Confirmed)
  {
    PcOkInRun(r, i, p);
    PcOkInRun(r, i, q);
    IndexesOkInRun(r, i);
    BookingOkInRun(r, i, a.id);
  }

  // A CreateHold that is repeated after it has been answered gets the same hold again: from its first
  // query on, the only other outcome is that the database cannot be reached.
  lemma RepeatedCreateSucceeds(r: Run, i: nat, j: nat, p: nat, h: Hold, existing: bool, q: nat, input: Input)
    requires IsRun(r) && i <= j < |r.labels| && Answered(r.states[i], p, HoldMade(h, existing))
    requires q in r.states[j].procs && r.states[j].procs[q].pc.CLookup? && r.labels[j] == Move(q, input)
    requires p in r.states[j].procs && r.states[j].procs[q].call == r.states[j].procs[p].call
    ensures h.id in r.states[j].db.holds
    ensures Answered(r.states[j + 1], q,
              if input.reachable then HoldMade(r.states[j].db.holds[h.id], true) else Rejected(Internal))
  {
    AnswersStay(r, i, j, p, HoldMade(h, existing));
    PcOkInRun(r, j, p);
    PcOkInRun(r, j, q);
    HoldOkInRun(r, j, h.id);
    IndexesOkInRun(r, j);
    var call := r.states[j].procs[q].call;
    StoredHoldIsFound(r.states[j].db, call.user, call.key, h.id);
    assert |h.seats| == |multiset(h.seats)| == |multiset(call.seats)|;
    assert Step(r.states[j], r.labels[j], r.states[j + 1]);
  }

  // The hold is stored under the request's key, for the same request.
  ghost predicate StoredFor(db: Db, call: Call, h: Hold)
    requires call.CreateHold?
  {
    SameRequest(h, call.showtime, call.seats)
    && exists k :: IsHoldFor(db, k, call.user, call.key) && db.holds[k] == h
  }

  // The request looks for a hold where it can find one, in its first query or after a duplicate key, and
  // the hold is there.
  ghost predicate FindsHold(s: State, l: Label, pid: nat, h: Hold) {
    && l.Move? && l.pid == pid && l.input.reachable
    && pid in s.procs && s.procs[pid].call.CreateHold?
    && ((s.procs[pid].pc.CLookup? && FewSeats(s.procs[pid].call.seats)) || s.procs[pid].pc.CRecover?)
    && StoredFor(s.db, s.procs[pid].call, h)
  }

  lemma StoredForMeansFound(db: Db, call: Call, h: Hold)
    requires call.CreateHold? && IndexesOk(db)
    ensures StoredFor(db, call, h) <==>
              FindHold(db, call.user, call.key) == Some(h) && SameRequest(h, call.showtime, call.seats)
  {
    if k :| IsHoldFor(db, k, call.user, call.key) {
      StoredHoldIsFound(db, call.user, call.key, k);
    }
  }

  // A step answers with a stored hold if and only if it looks for it and finds it.
  lemma StepFindsHold(s: State, l: Label, s': State, pid: nat, h: Hold)
    requires IndexesOk(s.db) && ProcsOk(s.db, s.procs) && Step(s, l, s') && !Answered(s, pid, HoldMade(h, true))
    ensures Answered(s', pid, HoldMade(h, true)) <==> FindsHold(s, l, pid, h)
  {
    if l.Move? && l.pid == pid {
      var p := s.procs[pid];
      assert PcOk(s.db, p.call, p.pc);
      OldHoldAnswer(s.ttl, s.db, p.call, p.pc, l.input, h);
    }
  }

  lemma OldHoldAnswer(ttl: Time, db: Db, call: Call, pc: Pc, input: Input, h: Hold)
    requires IndexesOk(db) && PcOk(db, call, pc) && ValidInput(db, call, pc, input) && !pc.Done?
    ensures Advance(ttl, db, call, pc, input).1 == Done(HoldMade(h, true)) <==>
              && call.CreateHold? && input.reachable && StoredFor(db, call, h)
              && ((pc.CLookup? && FewSeats(call.seats)) || pc.CRecover?)
  {
    if call.CreateHold? {
      assert StoredFor(db, call, h) <==>
               FindHold(db, call.user, call.key) == Some(h) && SameRequest(h, call.showtime, call.seats) by {
        StoredForMeansFound(db, call, h);
      }
      OldHoldCreated(ttl, db, call, pc, input, h);
    } else {
      OnlyCreateGivesHold(ttl, db, call, pc, input);
    }
  }

  lemma OldHoldCreated(ttl: Time, db: Db, call: Call, pc: Pc, input: Input, h: Hold)
    requires call.CreateHold? && CreateOk(db, call, pc) && !pc.Done?
    requires StoredFor(db, call, h) <==>
               FindHold(db, call.user, call.key) == Some(h) && SameRequest(h, call.showtime, call.seats)
    ensures AdvanceCreate(ttl, db, call, pc, input).1 == Done(HoldMade(h, true)) <==>
              && input.reachable && StoredFor(db, call, h)
              && ((pc.CLookup? && FewSeats(call.seats)) || pc.CRecover?)
  {
  }

  ghost predicate HasFoundHold(r: Run, j: nat, pid: nat, h: Hold)
    requires IsRun(r) && j < |r.states|
  {
    exists i :: 0 <= i < j && FindsHold(r.states[i], r.labels[i], pid, h)
  }

  lemma FoundByThen(r: Run, j: nat, pid: nat, h: Hold)
    requires IsRun(r) && j < |r.labels|
    ensures HasFoundHold(r, j + 1, pid, h) <==>
              HasFoundHold(r, j, pid, h) || FindsHold(r.states[j], r.labels[j], pid, h)
  {
  }

  lemma FoundThenAnswered(r: Run, j: nat, pid: nat, h: Hold)
    requires IsRun(r) && j < |r.labels|
    requires Answered(r.states[j], pid, HoldMade(h, true)) <==> HasFoundHold(r, j, pid, h)
    ensures Answered(r.states[j + 1], pid, HoldMade(h, true)) <==> HasFoundHold(r, j + 1, pid, h)
  {
    TurnFindsHold(r, j, pid, h);
    FoundByThen(r, j, pid, h);
  }

  // A request is answered with an existing hold if and only if, in one of its two queries for it, that hold
  // was stored: a repeat that looks too early for the one, and never comes to the other, is not.
  lemma {:induction false} ExistingHoldExactly(r: Run, j: nat, pid: nat, h: Hold)
    requires IsRun(r) && j < |r.states|
    ensures Answered(r.states[j], pid, HoldMade(h, true)) <==> HasFoundHold(r, j, pid, h)
  {
    if j > 0 {
      ExistingHoldExactly(r, j - 1, pid, h);
      FoundThenAnswered(r, j - 1, pid, h);
    }
  }

  lemma TurnFindsHold(r: Run, i: nat, pid: nat, h: Hold)
    requires IsRun(r) && i < |r.labels|
    ensures Answered(r.states[i + 1], pid, HoldMade(h, true)) <==>
              Answered(r.states[i], pid, HoldMade(h, true)) || FindsHold(r.states[i], r.labels[i], pid, h)
  {
    if Answered(r.states[i], pid, HoldMade(h, true)) {
      AnswersStay(r, i, i + 1, pid, HoldMade(h, true));
    } else {
      RunInv(r, i);
      StepFindsHold(r.states[i], r.labels[i], r.states[i + 1], pid, h);
    }
  }

  // A Confirm that is repeated after it has been answered gets the same booking again, also under another
  // key, as long as that key has not been spent on another hold.
  lemma RepeatedConfirmSucceeds(r: Run, i: nat, j: nat, p: nat, b: Booking, existing: bool, q: nat, input: Input)
    requires IsRun(r) && i <= j < |r.labels| && Answered(r.states[i], p, BookingMade(b, existing))
    requires q in r.states[j].procs && r.labels[j] == Move(q, input) && input.reachable
    requires r.states[j].procs[q].pc.FByKey? || r.states[j].procs[q].pc.FByHold?
    requires p in r.states[j].procs && r.states[j].procs[q].call.Confirm?
    requires r.states[j].procs[q].call.hold == b.hold && r.states[j].procs[q].call.user == b.user
    ensures var db, call, pc := r.states[j].db, r.states[j].procs[q].call, r.states[j].procs[q].pc;
            At(r.states[j + 1], q,
              if pc.FByKey? && KeySpentElsewhere(db, call) then Done(Rejected(KeyReused))
              else if pc.FByKey? && !KeySpent(db, call) then FByHold
              else Done(BookingMade(b, true)))
  {
    AnswersStay(r, i, j, p, BookingMade(b, existing));
    PcOkInRun(r, j, p);
    BookingIsFoundInRun(r, j, r.states[j].procs[q].call, b, input);
    assert Step(r.states[j], r.labels[j], r.states[j + 1]);
  }

  lemma BookingIsFoundInRun(r: Run, j: nat, call: Call, b: Booking, input: Input)
    requires IsRun(r) && j < |r.states| && input.reachable
    requires b.id in r.states[j].db.bookings && r.states[j].db.bookings[b.id] == b
    requires call.Confirm? && call.hold == b.hold && call.user == b.user
    ensures AfterByHold(r.states[j].db, call, input) == Done(BookingMade(b, true))
    ensures AfterByKey(r.states[j].db, call, input) ==
              if KeySpentElsewhere(r.states[j].db, call) then Done(Rejected(KeyReused))
              else if KeySpent(r.states[j].db, call) then Done(BookingMade(b, true)) else FByHold
  {
    IndexesOkInRun(r, j);
    BookingIsFound(r.states[j].db, call, b, input);
  }

  lemma BookingIsFound(db: Db, call: Call, b: Booking, input: Input)
    requires IndexesOk(db) && b.id in db.bookings && db.bookings[b.id] == b && input.reachable
    requires call.Confirm? && call.hold == b.hold && call.user == b.user
    ensures AfterByHold(db, call, input) == Done(BookingMade(b, true))
    ensures AfterByKey(db, call, input) ==
              if KeySpentElsewhere(db, call) then Done(Rejected(KeyReused))
              else if KeySpent(db, call) then Done(BookingMade(b, true)) else FByHold
  {
    BookingOfHoldIsFound(db, b.user, b.hold, b.id);
    if k :| IsBookingFor(db, k, call.user, call.key) {
      BookingForKeyIsFound(db, call.user, call.key, k);
    }
  }

  ghost predicate At(s: State, pid: nat, pc: Pc) {
    pid in s.procs && s.procs[pid].pc == pc
  }

  // The key belongs to some booking of the user, or to one of another hold.
  ghost predicate KeySpent(db: Db, call: Call)
    requires call.Confirm?
  {
    exists k :: IsBookingFor(db, k, call.user, call.key)
  }

  ghost predicate KeySpentElsewhere(db: Db, call: Call)
    requires call.Confirm?
  {
    exists k :: IsBookingFor(db, k, call.user, call.key) && db.bookings[k].hold != call.hold
  }

  // The booking is stored, for the hold and the user of the request.
  ghost predicate BookedFor(db: Db, call: Call, b: Booking)
    requires call.Confirm?
  {
    b.id in db.bookings && db.bookings[b.id] == b && b.user == call.user && b.hold == call.hold
  }

  // The request looks for a booking where it can find one: by its key, by its hold, or by its hold again
  // after its transaction has failed; and the booking is there.
  ghost predicate FindsBooking(s: State, l: Label, pid: nat, b: Booking) {
    && l.Move? && l.pid == pid && l.input.reachable
    && pid in s.procs && s.procs[pid].call.Confirm?
    && var p := s.procs[pid];
       && ((p.pc.FByKey? && b.key == p.call.key) || p.pc.FByHold? || p.pc.FReloadHold?)
       && BookedFor(s.db, p.call, b)
  }

  lemma BookedForMeansFound(db: Db, call: Call, b: Booking)
    requires call.Confirm? && IndexesOk(db) && IdsOk(db)
    ensures BookedFor(db, call, b) <==> FindBookingOf(db, call.user, call.hold) == Some(b)
    ensures BookedFor(db, call, b) && b.key == call.key <==>
              FindBookingFor(db, call.user, call.key) == Some(b) && b.hold == call.hold
  {
    if k :| IsBookingOf(db, k, call.user, call.hold) {
      BookingOfHoldIsFound(db, call.user, call.hold, k);
    }
    if k :| IsBookingFor(db, k, call.user, call.key) {
      BookingForKeyIsFound(db, call.user, call.key, k);
    }
    assert BookedFor(db, call, b) ==> IsBookingOf(db, b.id, call.user, call.hold);
    assert BookedFor(db, call, b) && b.key == call.key ==> IsBookingFor(db, b.id, call.user, call.key);
  }

  lemma OldBookingAnswer(ttl: Time, db: Db, call: Call, pc: Pc, input: Input, b: Booking)
    requires IndexesOk(db) && IdsOk(db) && PcOk(db, call, pc) && ValidInput(db, call, pc, input) && !pc.Done?
    ensures Advance(ttl, db, call, pc, input).1 == Done(BookingMade(b, true)) <==>
              && call.Confirm? && input.reachable && BookedFor(db, call, b)
              && ((pc.FByKey? && b.key == call.key) || pc.FByHold? || pc.FReloadHold?)
  {
    if call.Confirm? {
      assert BookedFor(db, call, b) <==> FindBookingOf(db, call.user, call.hold) == Some(b) by {
        BookedForMeansFound(db, call, b);
      }
      assert BookedFor(db, call, b) && b.key == call.key <==>
               FindBookingFor(db, call.user, call.key) == Some(b) && b.hold == call.hold by {
        BookedForMeansFound(db, call, b);
      }
      OldBookingConfirmed(db, call, pc, input, b);
    } else {
      OnlyConfirmGivesBooking(ttl, db, call, pc, input);
    }
  }

  lemma OldBookingConfirmed(db: Db, call: Call, pc: Pc, input: Input, b: Booking)
    requires call.Confirm? && ConfirmOk(db, call, pc) && ValidInput(db, call, pc, input) && !pc.Done?
    requires BookedFor(db, call, b) <==> FindBookingOf(db, call.user, call.hold) == Some(b)
    requires BookedFor(db, call, b) && b.key == call.key <==>
               FindBookingFor(db, call.user, call.key) == Some(b) && b.hold == call.hold
    ensures AdvanceConfirm(db, call, pc, input).1 == Done(BookingMade(b, true)) <==>
              && input.reachable && BookedFor(db, call, b)
              && ((pc.FByKey? && b.key == call.key) || pc.FByHold? || pc.FReloadHold?)
  {
  }

  // A step answers with a stored booking if and only if it looks for it and finds it.
  lemma StepFindsBooking(s: State, l: Label, s': State, pid: nat, b: Booking)
    requires IndexesOk(s.db) && IdsOk(s.db) && ProcsOk(s.db, s.procs) && Step(s, l, s')
    requires !Answered(s, pid, BookingMade(b, true))
    ensures Answered(s', pid, BookingMade(b, true)) <==> FindsBooking(s, l, pid, b)
  {
    if l.Move? && l.pid == pid {
      var p := s.procs[pid];
      assert PcOk(s.db, p.call, p.pc);
      OldBookingAnswer(s.ttl, s.db, p.call, p.pc, l.input, b);
    }
  }

  lemma TurnFindsBooking(r: Run, i: nat, pid: nat, b: Booking)
    requires IsRun(r) && i < |r.labels|
    ensures Answered(r.states[i + 1], pid, BookingMade(b, true)) <==>
              Answered(r.states[i], pid, BookingMade(b, true)) || FindsBooking(r.states[i], r.labels[i], pid, b)
  {
    if Answered(r.states[i], pid, BookingMade(b, true)) {
      AnswersStay(r, i, i + 1, pid, BookingMade(b, true));
    } else {
      RunInv(r, i);
      InvIds(r.states[i].db);
      StepFindsBooking(r.states[i], r.labels[i], r.states[i + 1], pid, b);
    }
  }

  ghost predicate HasFoundBooking(r: Run, j: nat, pid: nat, b: Booking)
    requires IsRun(r) && j < |r.states|
  {
    exists i :: 0 <= i < j && FindsBooking(r.states[i], r.labels[i], pid, b)
  }

  lemma BookingFoundByThen(r: Run, j: nat, pid: nat, b: Booking)
    requires IsRun(r) && j < |r.labels|
    ensures HasFoundBooking(r, j + 1, pid, b) <==>
              HasFoundBooking(r, j, pid, b) || FindsBooking(r.states[j], r.labels[j], pid, b)
  {
  }

  lemma BookingFoundThenAnswered(r: Run, j: nat, pid: nat, b: Booking)
    requires IsRun(r) && j < |r.labels|
    requires Answered(r.states[j], pid, BookingMade(b, true)) <==> HasFoundBooking(r, j, pid, b)
    ensures Answered(r.states[j + 1], pid, BookingMade(b, true)) <==> HasFoundBooking(r, j + 1, pid, b)
  {
    TurnFindsBooking(r, j, pid, b);
    BookingFoundByThen(r, j, pid, b);
  }

  // A confirmation is answered with an existing booking if and only if it was stored in one of its three
  // queries for it.
  lemma {:induction false} ExistingBookingExactly(r: Run, j: nat, pid: nat, b: Booking)
    requires IsRun(r) && j < |r.states|
    ensures Answered(r.states[j], pid, BookingMade(b, true)) <==> HasFoundBooking(r, j, pid, b)
  {
    if j > 0 {
      ExistingBookingExactly(r, j - 1, pid, b);
      BookingFoundThenAnswered(r, j - 1, pid, b);
    }
  }

  // The request is past its first two queries, and finds its own hold ended.
  ghost predicate FindsEnded(s: State, pid: nat) {
    && pid in s.procs && s.procs[pid].call.Confirm?
    && var p := s.procs[pid];
       && p.call.hold in s.db.holds && s.db.holds[p.call.hold].user == p.call.user
       && !s.db.holds[p.call.hold].status.Active?
       && match p.pc
          case FLoad => true
          case FClock(h) => !h.status.Active?
          case Done(a) => a == Rejected(HoldExpired) || a == Rejected(Internal)
          case _ => false
  }

  lemma EndedIsRefused(s: State, l: Label, s': State, pid: nat)
    requires Step(s, l, s') && Evolves(s.db, s'.db) && FindsEnded(s, pid)
    ensures FindsEnded(s', pid)
    ensures l.Move? && l.pid == pid && l.input.reachable ==>
              match s.procs[pid].pc
              case FLoad => s'.procs[pid].pc == FClock(s.db.holds[s.procs[pid].call.hold])
              case _ => s'.procs[pid].pc == Done(Rejected(HoldExpired))
  {
  }

  lemma TurnStaysEnded(r: Run, i: nat, pid: nat)
    requires IsRun(r) && i < |r.labels| && FindsEnded(r.states[i], pid)
    ensures FindsEnded(r.states[i + 1], pid)
  {
    RunStep(r, i);
    EndedIsRefused(r.states[i], r.labels[i], r.states[i + 1], pid);
  }

  lemma {:induction false} RunStaysEnded(r: Run, i: nat, j: nat, pid: nat)
    requires IsRun(r) && i <= j < |r.states| && FindsEnded(r.states[i], pid)
    ensures FindsEnded(r.states[j], pid)
  {
    if i < j {
      RunStaysEnded(r, i, j - 1, pid);
      TurnStaysEnded(r, j - 1, pid);
    }
  }

  // A confirmation that comes to load its hold when that has ended is answered HOLD_EXPIRED, unless the
  // database is out of reach: also when it was confirmed meanwhile, by its own user, under its own key.
  lemma LateConfirmIsRefused(r: Run, i: nat, j: nat, pid: nat, a: Answer)
    requires IsRun(r) && i <= j < |r.states| && FindsEnded(r.states[i], pid) && Answered(r.states[j], pid, a)
    ensures a == Rejected(HoldExpired) || a == Rejected(Internal)
  {
    RunStaysEnded(r, i, j, pid);
  }

  // At most one booking is stored per user and confirmation key.
  lemma OneBookingPerKey(r: Run, i: nat, a: Id, b: Id)
    requires IsRun(r) && i < |r.states| && a in r.states[i].db.bookings && b in r.states[i].db.bookings
    requires SameBookingKey(r.states[i].db.bookings[a], r.states[i].db.bookings[b])
    ensures a == b
  {
    RunInv(r, i);
  }

  // A request that has been answered keeps its answer.
  lemma {:induction false} AnswersStay(r: Run, i: nat, j: nat, pid: nat, a: Answer)
    requires IsRun(r) && i <= j < |r.states| && Answered(r.states[i], pid, a)
    ensures Answered(r.states[j], pid, a) && r.states[j].procs[pid] == r.states[i].procs[pid]
  {
    if i < j {
      AnswersStay(r, i, j - 1, pid, a);
      assert Step(r.states[j - 1], r.labels[j - 1], r.states[j]);
    }
  }

  // ---------------------------------------------------------------- consistency

  // The collections agree with each other in every reachable state.
  lemma CollectionsAgree(r: Run, i: nat)
    requires IsRun(r) && i < |r.states|
    ensures var db := r.states[i].db;
            && (forall ref :: ref in db.seats && db.seats[ref].status.Locked? ==>
                  && db.seats[ref].holdId.Some? && db.seats[ref].holdId.value in db.holds
                  && var h := db.holds[db.seats[ref].holdId.value];
                     h.status.Active? && ref in Refs(h)
                     && db.seats[ref].lockedBy == Some(h.user) && db.seats[ref].lockExpiresAt == Some(h.expiresAt))
    ensures var db := r.states[i].db;
            forall k :: k in db.holds ==>
              && 1 <= |Refs(db.holds[k])| == |db.holds[k].seats| <= MAX_SEATS
              && (db.holds[k].status.Confirmed? <==> HasBooking(db, k))
              && (forall a, b :: IsBooking(db, a, k) && IsBooking(db, b, k) ==> a == b)
    ensures var db := r.states[i].db;
            forall b :: b in db.bookings ==>
              && db.bookings[b].hold in db.holds && BookingRefs(db.bookings[b]) == Refs(db.holds[db.bookings[b].hold])
              && (forall ref :: ref in BookingRefs(db.bookings[b]) ==>
                    ref in db.seats && db.seats[ref].status.Booked? && db.seats[ref].bookingId == Some(b))
              && db.audits[BookingSuccess(b)] == 1
              && |EventsOf(db, b)| == 1
    ensures var db := r.states[i].db;
            forall k :: k in db.holds ==>
              && db.audits[SeatReleased(k, Manual)] == (if db.holds[k].status.Released? then 1 else 0)
              && db.audits[SeatReleased(k, Timeout)] == (if db.holds[k].status.Expired? then 1 else 0)
              && db.audits[BookingTimeout(k)] == (if db.holds[k].status.Expired? then 1 else 0)
  {
    RunInv(r, i);
    var db := r.states[i].db;
    forall ref | ref in db.seats && db.seats[ref].status.Locked? ensures SeatOk(db, ref) {
    }
    forall k | k in db.holds
      ensures |Refs(db.holds[k])| == |db.holds[k].seats| && FewSeats(db.holds[k].seats)
      ensures db.holds[k].status.Confirmed? <==> HasBooking(db, k)
    {
      assert HoldOk(db, k);
      if HasBooking(db, k) {
        var b :| b in db.bookings && db.bookings[b].hold == k;
        assert BookingOk(db, b);
      }
    }
    forall b | b in db.bookings ensures BookingOk(db, b) && |EventsOf(db, b)| == 1 {
      assert BookingOk(db, b);
      OneEvent(db, b);
    }
    assert forall k, s :: k in db.holds ==> (HasStatus(db, k, s) <==> db.holds[k].status == s);
  }

  predicate IsBooking(db: Db, b: Id, hold: Id) {
    b in db.bookings && db.bookings[b].hold == hold
  }

  function EventsOf(db: Db, b: Id): set<Id> {
    set e | e in db.outbox && db.outbox[e].booking == b
  }

  lemma OneEvent(db: Db, b: Id)
    requires OutboxOk(db) && b in db.bookings
    ensures |EventsOf(db, b)| == 1
  {
    assert HasEvent(db, b);
    var e :| e in db.outbox && db.outbox[e].booking == b;
    assert EventsOf(db, b) == {e};
  }

  // ---------------------------------------------------------------- sweeps

  // Across all workers a hold is counted as processed at most once, and the counter counts holds.
  lemma CountedOnce(r: Run, i: nat, p: nat, q: nat, v: Sweep, w: Sweep, hold: Id)
    requires IsRun(r) && i < |r.states|
    requires Answered(r.states[i], p, Swept(v)) && Answered(r.states[i], q, Swept(w))
    requires hold in v.counted && hold in w.counted
    ensures p == q
    ensures v.processed == |v.counted| && HasStatus(r.states[i].db, hold, Expired)
  {
    var s := r.states[i];
    PcOkInRun(r, i, p);
    ClaimsInRun(r, i);
    assert hold in Claims(s.procs[p].pc) && hold in Claims(s.procs[q].pc);
  }
}
