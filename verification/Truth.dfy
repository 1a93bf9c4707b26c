// With one clock and working scripts, a client is told that its hold has expired only when the hold has
// ended or its time is up: stale readings, lost seats and races never cost anyone a good hold.
module Truth {
  import opened Domain
  import opened Database
  import opened StoreInvariant
  import opened RedisLock
  import opened Protocol
  import opened ProtocolInvariant
  import opened Timed
  import opened TimedRuns

  // The hold has ended, or its time is up.
  ghost predicate Over(w: World, k: Id) {
    k in w.core.db.holds && !IsLiveHold(w, k)
  }

  // Where a confirmation stands that has found its hold expired.
  predicate Says(pc: Pc) {
    match pc
    case FReloadHold(_, error) => AfterAbort(error).HoldExpired?
    case FReloadKey(_, error) => AfterAbort(error).HoldExpired?
    case Done(answer) => answer == Rejected(HoldExpired)
    case _ => false
  }

  ghost predicate AllSaidTruly(w: World) {
    forall p :: p in w.core.procs && w.core.procs[p].call.Confirm? && Says(w.core.procs[p].pc) ==>
      Over(w, w.core.procs[p].call.hold)
  }

  // The three places where a confirmation finds its hold expired: its own clock reading, the verification
  // of the keys, and the transaction.
  ghost predicate FindsExpired(db: Db, call: Call, pc: Pc, input: Input)
    requires call.Confirm?
  {
    match pc
    case FClock(h) => !h.status.Active? || h.expiresAt <= input.time
    case FVerify(h) => input.redis.No?
    case FCommit(h, draft, event, at) =>
      var tx := ConfirmTx(db, h, call.user, draft, event, at);
      tx.Abort? && AfterAbort(tx.error).HoldExpired?
    case _ => false
  }

  lemma SaidIsFound(db: Db, call: Call, pc: Pc, input: Input)
    requires call.Confirm? && ValidInput(db, call, pc, input) && !Says(pc)
    requires Says(AdvanceConfirm(db, call, pc, input).1)
    ensures FindsExpired(db, call, pc, input)
  {
  }

  lemma OverStaysOver(w: World, t: Turn, w': World, k: Id)
    requires WorldStep(w, t, w') && Evolves(w.core.db, w'.core.db) && Over(w, k)
    ensures Over(w', k)
  {
    assert SameCore(w.core.db.holds[k], w'.core.db.holds[k]);
  }

  lemma FoundIsOver(w: World, pid: nat, input: Input, w': World)
    requires WorldInv(w) && WorldStep(w, Act(Move(pid, input)), w') && w.core.procs[pid].call.Confirm?
    requires FindsExpired(w.core.db, w.core.procs[pid].call, w.core.procs[pid].pc, input)
    ensures Over(w, w.core.procs[pid].call.hold)
  {
    var p := w.core.procs[pid];
    assert ConfirmOk(w.core.db, p.call, p.pc) by {
      assert PcOk(w.core.db, p.call, p.pc);
    }
    if IsLiveHold(w, p.call.hold) {
      match p.pc
      case FClock(h) =>
        assert false;
      case FVerify(h) =>
        LiveHoldIsVerified(w, p.call.hold, h);
        assert false;
      case FCommit(h, draft, event, at) =>
        assert TimesOk(p.pc, w.clock, w.core.ttl);
        LiveHoldIsConfirmable(w, h, draft, event, at);
        assert false;
    }
  }

  lemma LiveHoldIsVerified(w: World, k: Id, h: Hold)
    requires LiveHoldsOwnKeys(w) && IsLiveHold(w, k) && Known(w.core.db, h) && h.id == k
    ensures AllOwned(w.redis, KeysOf(h), OwnerOf(h), w.clock)
  {
    assert KeysHeld(w.redis, w.core.db.holds[k]);
  }

  // At any clock reading of the past, the transaction finds a live hold and all of its seats.
  lemma LiveHoldIsConfirmable(w: World, h: Hold, draft: Booking, event: Id, at: Time)
    requires DbInv(w.core.db) && LiveHoldsOwnSeats(w) && Known(w.core.db, h) && IsLiveHold(w, h.id) && at <= w.clock
    ensures var tx := ConfirmTx(w.core.db, h, h.user, draft, event, at);
            tx.Commit? || !AfterAbort(tx.error).HoldExpired?
  {
    MismatchMeansSeatLost(w.core.db, h, draft, event, at);
    assert OwnsSeats(w.core.db, w.core.db.holds[h.id]);
    assert HoldConfirmable(w.core.db, h, h.user, at);
  }

  lemma MoveSaysTruly(w: World, pid: nat, input: Input, w': World)
    requires WorldInv(w) && WorldStep(w, Act(Move(pid, input)), w') && AllSaidTruly(w)
    requires w.core.procs[pid].call.Confirm? && Says(w'.core.procs[pid].pc)
    ensures Over(w, w.core.procs[pid].call.hold)
  {
    var p := w.core.procs[pid];
    if !Says(p.pc) {
      SaidIsFound(w.core.db, p.call, p.pc, input);
      FoundIsOver(w, pid, input, w');
    }
  }

  lemma StepEvolves(w: World, t: Turn, w': World)
    requires Inv(w.core) && WorldStep(w, t, w')
    ensures Evolves(w.core.db, w'.core.db)
  {
    match t
    case Tick => EvolvesReflexive(w.core.db);
    case Act(l) => StepKeepsInv(w.core, l, w'.core);
  }

  lemma StepSaysTruly(w: World, t: Turn, w': World)
    requires WorldInv(w) && WorldStep(w, t, w') && AllSaidTruly(w)
    ensures AllSaidTruly(w')
  {
    StepEvolves(w, t, w');
    forall p | p in w'.core.procs && w'.core.procs[p].call.Confirm? && Says(w'.core.procs[p].pc)
      ensures Over(w', w'.core.procs[p].call.hold)
    {
      if t.Act? && t.l.Move? && t.l.pid == p {
        MoveSaysTruly(w, p, t.l.input, w');
      } else {
        OthersSayTruly(w, t, w', p);
      }
      OverStaysOver(w, t, w', w'.core.procs[p].call.hold);
    }
  }

  lemma OthersSayTruly(w: World, t: Turn, w': World, p: nat)
    requires WorldStep(w, t, w') && AllSaidTruly(w) && !(t.Act? && t.l.Move? && t.l.pid == p)
    requires p in w'.core.procs && w'.core.procs[p].call.Confirm? && Says(w'.core.procs[p].pc)
    ensures p in w.core.procs && w'.core.procs[p] == w.core.procs[p] && Over(w, w'.core.procs[p].call.hold)
  {
  }

  lemma TurnSaysTruly(r: TimedRun, i: nat)
    requires IsTimedRun(r) && i < |r.turns| && AllSaidTruly(r.worlds[i])
    ensures AllSaidTruly(r.worlds[i + 1])
  {
    TimedRunInv(r, i);
    StepSaysTruly(r.worlds[i], r.turns[i], r.worlds[i + 1]);
  }

  lemma {:induction false} RunSaysTruly(r: TimedRun, i: nat)
    requires IsTimedRun(r) && i < |r.worlds|
    ensures AllSaidTruly(r.worlds[i])
  {
    if i > 0 {
      RunSaysTruly(r, i - 1);
      TurnSaysTruly(r, i - 1);
    }
  }

  // The answer HOLD_EXPIRED, once given, is and stays true.
  lemma HoldExpiredIsTrue(r: TimedRun, i: nat, pid: nat)
    requires IsTimedRun(r) && i < |r.worlds| && At(r.worlds[i], pid, Done(Rejected(HoldExpired)))
    requires r.worlds[i].core.procs[pid].call.Confirm?
    ensures var k := r.worlds[i].core.procs[pid].call.hold;
            var w := r.worlds[i];
            && k in w.core.db.holds
            && (w.core.db.holds[k].status.Active? ==> w.core.db.holds[k].expiresAt <= w.clock)
  {
    RunSaysTruly(r, i);
  }
}
