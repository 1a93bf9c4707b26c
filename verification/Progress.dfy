// Requests get somewhere: what a release, a sweep and every request comes to, over all runs.
module Progress {
  import opened Domain
  import opened Database
  import opened StoreInvariant
  import opened Ledger
  import opened Protocol
  import opened ProtocolInvariant
  import opened Runs

  // ---------------------------------------------------------------- releases

  // A request that is releasing a hold of its own user.
  ghost predicate Releasing(s: State, pid: nat) {
    && pid in s.procs && s.procs[pid].call.ReleaseHold?
    && s.procs[pid].call.hold in s.db.holds && s.db.holds[s.procs[pid].call.hold].user == s.procs[pid].call.user
    && match s.procs[pid].pc
       case RLoad => true
       case RCommit(_) => true
       case RReload(_) => true
       case RUnlock(_) => true
       case Done(a) => a.HoldGivenUp? || a == Rejected(Internal)
       case _ => false
  }

  // The same while the database has been within reach: it can only come to the hold's end.
  ghost predicate SurelyReleasing(s: State, pid: nat) {
    && Releasing(s, pid)
    && match s.procs[pid].pc
       case RReload(h) => h.id in s.db.holds && !s.db.holds[h.id].status.Active?
       case Done(a) => a.HoldGivenUp?
       case _ => true
  }

  lemma StepKeepsReleasing(s: State, l: Label, s': State, pid: nat)
    requires Step(s, l, s') && Evolves(s.db, s'.db) && Releasing(s, pid)
    requires ReleaseOk(s.db, s.procs[pid].call, s.procs[pid].pc)
    ensures Releasing(s', pid) && s'.procs[pid].call == s.procs[pid].call
    ensures SurelyReleasing(s, pid) && (l.Move? && l.pid == pid ==> l.input.reachable) ==> SurelyReleasing(s', pid)
  {
    assert SameCore(s.db.holds[s.procs[pid].call.hold], s'.db.holds[s.procs[pid].call.hold]);
  }

  lemma TurnKeepsReleasing(r: Run, i: nat, pid: nat)
    requires IsRun(r) && i < |r.labels| && Releasing(r.states[i], pid)
    ensures Releasing(r.states[i + 1], pid) && r.states[i + 1].procs[pid].call == r.states[i].procs[pid].call
    ensures SurelyReleasing(r.states[i], pid) && (MovesAt(r, i, pid) ==> r.labels[i].input.reachable) ==>
              SurelyReleasing(r.states[i + 1], pid)
  {
    assert Step(r.states[i], r.labels[i], r.states[i + 1]);
    PcOkInRun(r, i, pid);
    RunStep(r, i);
    StepKeepsReleasing(r.states[i], r.labels[i], r.states[i + 1], pid);
  }

  // All steps of the request from i to j find the database within reach.
  ghost predicate GetsThrough(r: Run, pid: nat, i: nat, j: nat) {
    forall k: nat {:trigger MovesAt(r, k, pid)} :: i <= k < j && MovesAt(r, k, pid) ==> r.labels[k].input.reachable
  }

  lemma {:induction false} RunKeepsReleasing(r: Run, i: nat, j: nat, pid: nat)
    requires IsRun(r) && i <= j < |r.states| && Releasing(r.states[i], pid)
    ensures Releasing(r.states[j], pid) && r.states[j].procs[pid].call == r.states[i].procs[pid].call
    ensures SurelyReleasing(r.states[i], pid) && GetsThrough(r, pid, i, j) ==> SurelyReleasing(r.states[j], pid)
  {
    if i < j {
      RunKeepsReleasing(r, i, j - 1, pid);
      TurnKeepsReleasing(r, j - 1, pid);
    }
  }

  // A request that comes to load its own user's hold is answered with the hold given up, whoever has ended it,
  // unless the database is out of reach.
  lemma OwnHoldIsGivenUp(r: Run, i: nat, j: nat, pid: nat, a: Answer)
    requires IsRun(r) && i <= j < |r.states| && Releasing(r.states[i], pid) && r.states[i].procs[pid].pc.RLoad?
    requires Answered(r.states[j], pid, a)
    ensures a.HoldGivenUp? || a == Rejected(Internal)
    ensures GetsThrough(r, pid, i, j) ==> a.HoldGivenUp?
    ensures r.states[j].procs[pid].call == r.states[i].procs[pid].call
    ensures a.HoldGivenUp? ==>
              var k := r.states[i].procs[pid].call.hold;
              k in r.states[j].db.holds && a.hold == r.states[j].db.holds[k] && !a.hold.status.Active?
  {
    RunKeepsReleasing(r, i, j, pid);
    PcOkInRun(r, j, pid);
  }

  // Loading an own hold that is ACTIVE, it goes on to its transaction; and that ends the hold if and only if
  // it is still ACTIVE by then.
  lemma ReleaseGoesOn(r: Run, i: nat, pid: nat)
    requires IsRun(r) && MovesAt(r, i, pid) && Releasing(r.states[i], pid) && r.states[i].procs[pid].pc.RLoad?
    requires r.labels[i].input.reachable && r.states[i].db.holds[r.states[i].procs[pid].call.hold].status.Active?
    ensures var h := r.states[i].db.holds[r.states[i].procs[pid].call.hold];
            pid in r.states[i + 1].procs && r.states[i + 1].procs[pid].pc == RCommit(h)
  {
    assert Step(r.states[i], r.labels[i], r.states[i + 1]);
  }

  lemma ReleaseCommits(r: Run, i: nat, pid: nat, h: Hold)
    requires IsRun(r) && MovesAt(r, i, pid) && pid in r.states[i].procs && r.states[i].procs[pid].pc == RCommit(h)
    requires r.labels[i].input.reachable
    ensures EntryOf(r.states[i], r.labels[i]) == Some(GiveUp(h.id)) <==> HasStatus(r.states[i].db, h.id, Active)
    ensures HasStatus(r.states[i].db, h.id, Active) ==> HasStatus(r.states[i + 1].db, h.id, Released)
  {
    PcOkInRun(r, i, pid);
    assert Step(r.states[i], r.labels[i], r.states[i + 1]);
  }

  // ---------------------------------------------------------------- sweeps

  // The sweep has expired the hold, and is about to see that, about to release its keys, or has counted it.
  predicate ExpiredBy(pc: Pc, hold: Id) {
    match pc
    case SCheck(w) => w.next < |w.due| && (hold in w.counted || w.due[w.next].id == hold)
    case SUnlock(w) => w.next < |w.due| && (hold in w.counted || w.due[w.next].id == hold)
    case SItem(w) => hold in w.counted
    case Done(Swept(w)) => hold in w.counted
    case _ => false
  }

  lemma AdvanceKeepsExpired(db: Db, call: Call, pc: Pc, input: Input, hold: Id)
    requires call.ExpireDueHolds? && ExpireOk(db, call, pc) && !pc.Done? && ExpiredBy(pc, hold)
    requires pc.SCheck? ==> input.reachable
    ensures ExpiredBy(AdvanceSweep(db, call, pc, input).1, hold)
  {
  }

  ghost predicate ChecksAt(r: Run, k: nat, pid: nat) {
    MovesAt(r, k, pid) && k < |r.states| && pid in r.states[k].procs && r.states[k].procs[pid].pc.SCheck?
  }

  // All checks of the sweep from i to j find the database within reach.
  ghost predicate ChecksGetThrough(r: Run, pid: nat, i: nat, j: nat) {
    forall k: nat {:trigger ChecksAt(r, k, pid)} :: i <= k < j && ChecksAt(r, k, pid) ==> r.labels[k].input.reachable
  }

  lemma TurnKeepsExpired(r: Run, i: nat, pid: nat, hold: Id)
    requires IsRun(r) && i < |r.labels| && pid in r.states[i].procs && r.states[i].procs[pid].call.ExpireDueHolds?
    requires ExpiredBy(r.states[i].procs[pid].pc, hold) && ChecksGetThrough(r, pid, i, i + 1)
    ensures pid in r.states[i + 1].procs && r.states[i + 1].procs[pid].call.ExpireDueHolds?
    ensures ExpiredBy(r.states[i + 1].procs[pid].pc, hold)
  {
    var s := r.states[i];
    assert Step(s, r.labels[i], r.states[i + 1]);
    if MovesAt(r, i, pid) {
      PcOkInRun(r, i, pid);
      assert s.procs[pid].pc.SCheck? ==> ChecksAt(r, i, pid);
      AdvanceKeepsExpired(s.db, s.procs[pid].call, s.procs[pid].pc, r.labels[i].input, hold);
    }
  }

  lemma {:induction false} RunKeepsExpired(r: Run, i: nat, j: nat, pid: nat, hold: Id)
    requires IsRun(r) && i <= j < |r.states| && pid in r.states[i].procs && r.states[i].procs[pid].call.ExpireDueHolds?
    requires ExpiredBy(r.states[i].procs[pid].pc, hold) && ChecksGetThrough(r, pid, i, j)
    ensures pid in r.states[j].procs && r.states[j].procs[pid].call.ExpireDueHolds?
    ensures ExpiredBy(r.states[j].procs[pid].pc, hold)
  {
    if i < j {
      RunKeepsExpired(r, i, j - 1, pid, hold);
      TurnKeepsExpired(r, j - 1, pid, hold);
    }
  }

  // A sweep whose checks get through has counted every hold that a step of its own has expired.
  lemma ExpiredIsCounted(r: Run, i: nat, j: nat, pid: nat, hold: Id, w: Sweep)
    requires IsRun(r) && MovesAt(r, i, pid) && i < j < |r.states|
    requires pid in r.states[i].procs && r.states[i].procs[pid].call.ExpireDueHolds?
    requires EntryOf(r.states[i], r.labels[i]) == Some(GiveUp(hold))
    requires ChecksGetThrough(r, pid, i + 1, j) && Answered(r.states[j], pid, Swept(w))
    ensures hold in w.counted
  {
    assert Step(r.states[i], r.labels[i], r.states[i + 1]);
    RunKeepsExpired(r, i + 1, j, pid, hold);
  }

  // And every due hold that the sweep comes to, within reach of the database, is expired by that very step.
  lemma DueIsExpired(r: Run, i: nat, pid: nat, w: Sweep)
    requires IsRun(r) && MovesAt(r, i, pid) && pid in r.states[i].procs && r.states[i].procs[pid].pc == SItem(w)
    requires r.labels[i].input.reachable && w.next < |w.due|
    ensures EntryOf(r.states[i], r.labels[i]) == Some(GiveUp(w.due[w.next].id)) <==>
              HasStatus(r.states[i].db, w.due[w.next].id, Active)
    ensures HasStatus(r.states[i].db, w.due[w.next].id, Active) ==>
              HasStatus(r.states[i + 1].db, w.due[w.next].id, Expired)
  {
    PcOkInRun(r, i, pid);
    assert Known(r.states[i].db, w.due[w.next]);
    assert Step(r.states[i], r.labels[i], r.states[i + 1]);
  }

  // ---------------------------------------------------------------- every request ends

  // How many steps a request is from its end at most, a sweep from its fetched list on.
  function StepsLeft(pc: Pc): nat {
    match pc
    case CLookup => 7
    case CClock => 6
    case CPrepare(_) => 5
    case CAcquire(_, _) => 4
    case CInsert(_, _) => 3
    case CUndo(_, _) => 2
    case CRecover => 1
    case RLoad => 3
    case RCommit(_) => 2
    case RReload(_) => 1
    case RUnlock(_) => 1
    case FByKey => 11
    case FByHold => 10
    case FLoad => 9
    case FClock(_) => 8
    case FVerify(_) => 7
    case FSeats(_) => 6
    case FTxClock(_, _, _) => 5
    case FCommit(_, _, _, _) => 4
    case FReloadHold(_, _) => 2
    case FReloadKey(_, _) => 1
    case FUnlock(_, _) => 1
    case SClock => 1
    case SFetch(_) => 0
    case SItem(w) => if w.next <= |w.due| then 3 * (|w.due| - w.next) + 1 else 0
    case SCheck(w) => if w.next < |w.due| then 3 * (|w.due| - w.next) else 0
    case SUnlock(w) => if w.next < |w.due| then 3 * (|w.due| - w.next) - 1 else 0
    case Done(_) => 0
  }

  // The two steps that lead further away: the sweep's query, which brings its list, and the repetition of a
  // confirmation's transaction.
  predicate BringsMore(pc: Pc, input: Input) {
    pc.SFetch? || (pc.FCommit? && !input.reachable && input.retry)
  }

  lemma MoveUsesUp(ttl: Time, db: Db, call: Call, pc: Pc, input: Input)
    requires PcOk(db, call, pc) && ValidInput(db, call, pc, input) && !pc.Done? && !BringsMore(pc, input)
    ensures StepsLeft(Advance(ttl, db, call, pc, input).1) < StepsLeft(pc)
  {
    match call
    case CreateHold(_, _, _, _) => CreateUsesUp(ttl, db, call, pc, input);
    case ReleaseHold(_, _) => ReleaseUsesUp(db, call, pc, input);
    case Confirm(_, _, _) => ConfirmUsesUp(db, call, pc, input);
    case ExpireDueHolds(_) => SweepUsesUp(db, call, pc, input);
  }

  lemma CreateUsesUp(ttl: Time, db: Db, call: Call, pc: Pc, input: Input)
    requires call.CreateHold? && CreateOk(db, call, pc) && !pc.Done?
    ensures StepsLeft(AdvanceCreate(ttl, db, call, pc, input).1) < StepsLeft(pc)
  {
  }

  lemma ReleaseUsesUp(db: Db, call: Call, pc: Pc, input: Input)
    requires call.ReleaseHold? && ReleaseOk(db, call, pc) && !pc.Done?
    ensures StepsLeft(AdvanceRelease(db, call, pc, input).1) < StepsLeft(pc)
  {
  }

  lemma ConfirmUsesUp(db: Db, call: Call, pc: Pc, input: Input)
    requires call.Confirm? && ConfirmOk(db, call, pc) && !pc.Done? && ValidInput(db, call, pc, input)
    requires !BringsMore(pc, input)
    ensures StepsLeft(AdvanceConfirm(db, call, pc, input).1) < StepsLeft(pc)
  {
  }

  lemma SweepUsesUp(db: Db, call: Call, pc: Pc, input: Input)
    requires call.ExpireDueHolds? && ExpireOk(db, call, pc) && !pc.Done? && !pc.SFetch?
    ensures StepsLeft(AdvanceSweep(db, call, pc, input).1) < StepsLeft(pc)
  {
  }

  // A list of n holds takes at most 3 n + 1 further steps, a repetition one more than was left.
  lemma MoreIsBounded(ttl: Time, db: Db, call: Call, pc: Pc, input: Input)
    requires PcOk(db, call, pc) && ValidInput(db, call, pc, input) && !pc.Done? && BringsMore(pc, input)
    ensures var left := StepsLeft(Advance(ttl, db, call, pc, input).1);
            if pc.SFetch? then left <= 3 * |input.due| + 1 else left == StepsLeft(pc) + 1
  {
  }

  predicate IsMoveOf(l: Label, pid: nat) {
    l.Move? && l.pid == pid
  }

  // How many steps the request has made so far.
  function StepsOf(r: Run, pid: nat, j: nat): nat
    requires j <= |r.labels|
  {
    if j == 0 then 0
    else StepsOf(r, pid, j - 1) + if IsMoveOf(r.labels[j - 1], pid) then 1 else 0
  }

  ghost predicate NeverMore(r: Run, pid: nat, i: nat, j: nat) {
    forall k: nat {:trigger MovesAt(r, k, pid)} ::
      i <= k < j && MovesAt(r, k, pid) && k < |r.states| && pid in r.states[k].procs ==>
        !BringsMore(r.states[k].procs[pid].pc, r.labels[k].input)
  }

  // The steps it has made and those it has left.
  function StepsInAll(r: Run, pid: nat, j: nat): nat
    requires j <= |r.labels| && j < |r.states| && pid in r.states[j].procs
  {
    StepsOf(r, pid, j) + StepsLeft(r.states[j].procs[pid].pc)
  }

  lemma TurnUsesUp(r: Run, i: nat, pid: nat)
    requires IsRun(r) && i < |r.labels| && pid in r.states[i].procs && NeverMore(r, pid, i, i + 1)
    ensures pid in r.states[i + 1].procs && StepsInAll(r, pid, i + 1) <= StepsInAll(r, pid, i)
  {
    var s := r.states[i];
    assert Step(s, r.labels[i], r.states[i + 1]);
    if MovesAt(r, i, pid) {
      PcOkInRun(r, i, pid);
      MoveUsesUp(s.ttl, s.db, s.procs[pid].call, s.procs[pid].pc, r.labels[i].input);
    }
  }

  lemma {:induction false} StepsInAllFall(r: Run, i: nat, j: nat, pid: nat)
    requires IsRun(r) && i <= j < |r.states| && pid in r.states[i].procs && NeverMore(r, pid, i, j)
    ensures pid in r.states[j].procs && StepsInAll(r, pid, j) <= StepsInAll(r, pid, i)
  {
    if i < j {
      StepsInAllFall(r, i, j - 1, pid);
      TurnUsesUp(r, j - 1, pid);
    }
  }

  // So a request that fetches no list and repeats no transaction ends within the steps it has left: a hold
  // within 7, a release within 3, a confirmation within 11.
  lemma RequestsEnd(r: Run, i: nat, j: nat, pid: nat)
    requires IsRun(r) && i <= j < |r.states| && pid in r.states[i].procs && NeverMore(r, pid, i, j)
    ensures pid in r.states[j].procs
    ensures StepsOf(r, pid, j) - StepsOf(r, pid, i) + StepsLeft(r.states[j].procs[pid].pc)
              <= StepsLeft(r.states[i].procs[pid].pc)
  {
    StepsInAllFall(r, i, j, pid);
  }

  // And it can always go on until then: its next step is possible at any time.
  lemma CanGoOn(s: State, pid: nat, input: Input)
    requires pid in s.procs && !s.procs[pid].pc.Done?
    ensures CanMove(s, pid, input.(reachable := false))
  {
  }
}
