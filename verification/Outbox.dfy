// Delivering outbox events: workers lease an event, publish it, and write the result back.
module Outbox {
  import opened Domain

  const LEASE: Time := 30_000
  const MAX_BACKOFF: nat := 60
  const SECOND: Time := 1_000

  function Pow2(n: nat): nat {
    if n == 0 then 1 else 2 * Pow2(n - 1)
  }

  // min(2 ^ attempts, 60) seconds.
  function Backoff(attempts: nat): Time {
    (if Pow2(attempts) < MAX_BACKOFF then Pow2(attempts) else MAX_BACKOFF) * SECOND
  }

  // The pause grows with every attempt until, from the sixth on, it is one minute.
  lemma {:induction false} Pow2Grows(a: nat, b: nat)
    requires a <= b
    ensures Pow2(a) <= Pow2(b)
  {
    if a < b {
      Pow2Grows(a, b - 1);
    }
  }

  lemma BackoffGrows(a: nat, b: nat)
    requires a <= b
    ensures SECOND <= Backoff(a) <= Backoff(b) <= MAX_BACKOFF * SECOND
    ensures Backoff(a) == MAX_BACKOFF * SECOND <==> 6 <= a
  {
    Pow2Grows(a, b);
    Pow2Grows(0, a);
    assert Pow2(5) == 32 && Pow2(6) == 64;
    if 6 <= a {
      Pow2Grows(6, a);
    } else {
      Pow2Grows(a, 5);
    }
  }

  // It begins with one second and doubles until it would pass the minute.
  lemma BackoffDoubles(a: nat)
    ensures Backoff(0) == SECOND
    ensures Backoff(a + 1) == if a < 5 then 2 * Backoff(a) else MAX_BACKOFF * SECOND
  {
    BackoffGrows(a, a + 1);
    if a < 5 {
      Pow2Grows(a + 1, 5);
    }
  }

  type Rows = map<Id, OutboxEvent>

  // The filter of claimOutbox.
  predicate Claimable(row: OutboxEvent, now: Time) {
    && row.nextAttemptAt <= now
    && (row.status.Pending? || (row.status.Processing? && row.leaseUntil.Some? && row.leaseUntil.value <= now))
  }

  // FindOneAndUpdate answers with the matching event that has waited longest, or with none.
  predicate IsClaimAnswer(rows: Rows, now: Time, answer: Option<Id>) {
    match answer
    case None => forall e :: e in rows ==> !Claimable(rows[e], now)
    case Some(e) =>
      && e in rows && Claimable(rows[e], now)
      && forall d :: d in rows && Claimable(rows[d], now) ==> rows[e].nextAttemptAt <= rows[d].nextAttemptAt
  }

  function Claimed(row: OutboxEvent, now: Time): OutboxEvent {
    row.(status := Processing, leaseUntil := Some(now + LEASE), attempts := row.attempts + 1)
  }

  // The update after a confirmed publication finds the event only while it is being processed.
  function Delivered(row: OutboxEvent): OutboxEvent {
    if row.status.Processing? then row.(status := Published, leaseUntil := None) else row
  }

  // The update after a failed one has no such condition.
  function PutBack(row: OutboxEvent, attempts: nat, now: Time): OutboxEvent {
    row.(status := Pending, nextAttemptAt := now + Backoff(attempts), leaseUntil := None)
  }

  class Collection {
    var rows: Rows

    constructor ()
      ensures rows == map[]
    {
      rows := map[];
    }

    // claimOutbox: answer is what the query finds.
    method Claim(now: Time, answer: Option<Id>) returns (event: Option<OutboxEvent>)
      requires IsClaimAnswer(rows, now, answer)
      modifies this
      ensures answer.None? ==> event.None? && rows == old(rows)
      ensures answer.Some? ==>
        event == Some(Claimed(old(rows)[answer.value], now)) && rows == old(rows)[answer.value := event.value]
    {
      if answer.None? {
        return None;
      }
      var row := rows[answer.value];
      row := row.(status := Processing, leaseUntil := Some(now + LEASE));
      row := row.(attempts := row.attempts + 1);
      rows := rows[answer.value := row];
      return Some(row);
    }

    // publishOutbox, after the broker has answered at time now.
    method Settle(e: Id, event: OutboxEvent, confirmed: bool, now: Time)
      requires e in rows
      modifies this
      ensures rows == old(rows)[e := if confirmed then Delivered(old(rows)[e])
                                     else PutBack(old(rows)[e], event.attempts, now)]
    {
      if confirmed {
        if rows[e].status.Processing? {
          rows := rows[e := rows[e].(status := Published, leaseUntil := None)];
        }
        return;
      }
      var next := now + Backoff(event.attempts);
      rows := rows[e := rows[e].(status := Pending, nextAttemptAt := next, leaseUntil := None)];
    }
  }

  // ---------------------------------------------------------------- workers

  datatype Worker =
    | Idle
    | Looking(now: Time)
    | Publishing(event: Id, attempts: nat, lease: Time)
    | Settling(event: Id, attempts: nat, lease: Time, confirmed: bool, now: Time)

  // `writtenAt` and `acknowledged` record the history: when an event was last written, and which
  // events the broker has confirmed.
  datatype System = System(
    clock: Time, rows: Rows, workers: map<nat, Worker>, writtenAt: map<Id, Time>, acknowledged: set<Id>)

  datatype Act =
    | Tick(to: Time)
    | Insert(e: Id, booking: Id, at: Time)
    | Start(p: nat)
    | Look(p: nat)
    | Take(p: nat, answer: Option<Id>, lost: bool)
    | Publish(p: nat, confirmed: bool)
    | Settle(p: nat, lost: bool)
    | Crash(p: nat)

  function Wrote(s: System, e: Id, row: OutboxEvent): System {
    s.(rows := s.rows[e := row], writtenAt := s.writtenAt[e := s.clock])
  }

  function Works(s: System, p: nat, w: Worker): System {
    s.(workers := s.workers[p := w])
  }

  predicate Can(s: System, a: Act) {
    match a
    case Tick(to) => s.clock <= to
    case Insert(e, _, at) => e !in s.rows && at <= s.clock
    case Start(p) => p !in s.workers
    case Look(p) => p in s.workers && s.workers[p].Idle?
    case Take(p, answer, _) =>
      p in s.workers && s.workers[p].Looking? && IsClaimAnswer(s.rows, s.workers[p].now, answer)
    case Publish(p, _) => p in s.workers && s.workers[p].Publishing?
    case Settle(p, _) => p in s.workers && s.workers[p].Settling? && s.workers[p].event in s.rows
    case Crash(p) => p in s.workers
  }

  // A call whose answer is lost may have had its effect; the worker goes on either way.
  function Next(s: System, a: Act): System
    requires Can(s, a)
  {
    match a
    case Tick(to) => s.(clock := to)
    case Insert(e, booking, at) => Wrote(s, e, OutboxEvent(booking, Pending, 0, at, None))
    case Start(p) => Works(s, p, Idle)
    case Look(p) => Works(s, p, Looking(s.clock))
    case Take(p, answer, lost) =>
      if answer.None? then Works(s, p, Idle)
      else
        var row := Claimed(s.rows[answer.value], s.workers[p].now);
        Wrote(Works(s, p, if lost then Idle else Publishing(answer.value, row.attempts, s.workers[p].now + LEASE)),
              answer.value, row)
    case Publish(p, confirmed) =>
      var w := s.workers[p];
      Works(s.(acknowledged := if confirmed then s.acknowledged + {w.event} else s.acknowledged), p,
            Settling(w.event, w.attempts, w.lease, confirmed, s.clock))
    case Settle(p, lost) =>
      var w := s.workers[p];
      // The update after a confirmed publication writes nothing when it finds the event in another state.
      if lost || (w.confirmed && !s.rows[w.event].status.Processing?) then Works(s, p, Idle)
      else
        Wrote(Works(s, p, Idle), w.event,
              if w.confirmed then Delivered(s.rows[w.event]) else PutBack(s.rows[w.event], w.attempts, w.now))
    case Crash(p) => Works(s, p, Idle)
  }

  ghost predicate RowOk(s: System, e: Id)
    requires e in s.rows
  {
    var row := s.rows[e];
    && e in s.writtenAt && s.writtenAt[e] <= s.clock
    && (row.status.Processing? <==> row.leaseUntil.Some?)
    && (row.status.Published? ==> e in s.acknowledged)
    && (row.status.Pending? ==> row.nextAttemptAt <= s.writtenAt[e] + MAX_BACKOFF * SECOND)
    && (row.status.Processing? ==>
          row.nextAttemptAt <= s.writtenAt[e] && row.leaseUntil.value <= s.writtenAt[e] + LEASE)
  }

  ghost predicate WorkerOk(s: System, w: Worker) {
    && (w.Looking? ==> w.now <= s.clock)
    && (w.Publishing? || w.Settling? ==> w.event in s.rows)
    && (w.Settling? ==> w.now <= s.clock && (w.confirmed ==> w.event in s.acknowledged))
  }

  ghost predicate SystemInv(s: System) {
    && (forall e :: e in s.rows ==> RowOk(s, e))
    && (forall p :: p in s.workers ==> WorkerOk(s, s.workers[p]))
  }

  ghost predicate Begins(s: System) {
    s.rows == map[] && s.workers == map[] && s.writtenAt == map[] && s.acknowledged == {}
  }

  lemma NextKeepsRows(s: System, a: Act)
    requires SystemInv(s) && Can(s, a)
    ensures forall e :: e in Next(s, a).rows ==> RowOk(Next(s, a), e)
  {
    var s' := Next(s, a);
    if a.Settle? {
      assert WorkerOk(s, s.workers[a.p]);
      BackoffGrows(s.workers[a.p].attempts, s.workers[a.p].attempts);
    }
    if a.Take? {
      assert WorkerOk(s, s.workers[a.p]);
    }
    forall e | e in s'.rows ensures RowOk(s', e) {
      if e in s.rows {
        assert RowOk(s, e);
      }
    }
  }

  lemma NextKeepsWorkers(s: System, a: Act)
    requires (forall p :: p in s.workers ==> WorkerOk(s, s.workers[p])) && Can(s, a)
    ensures forall p :: p in Next(s, a).workers ==> WorkerOk(Next(s, a), Next(s, a).workers[p])
  {
    var s' := Next(s, a);
    forall p | p in s'.workers ensures WorkerOk(s', s'.workers[p]) {
      if p in s.workers {
        assert WorkerOk(s, s.workers[p]);
      }
    }
  }

  lemma NextKeepsInv(s: System, a: Act)
    requires SystemInv(s) && Can(s, a)
    ensures SystemInv(Next(s, a))
  {
    NextKeepsRows(s, a);
    NextKeepsWorkers(s, a);
  }

  // Workers rewrite the delivery state of events only: what the booking protocol relies on.
  lemma WorkersOnlyTouch(s: System, a: Act)
    requires Can(s, a) && !a.Insert?
    ensures Next(s, a).rows.Keys == s.rows.Keys
    ensures forall e :: e in s.rows ==> Next(s, a).rows[e].booking == s.rows[e].booking
  {
  }

  datatype Run = Run(states: seq<System>, acts: seq<Act>)

  ghost predicate IsPath(states: seq<System>, acts: seq<Act>) {
    && |states| == |acts| + 1
    && forall i :: 0 <= i < |acts| ==> Can(states[i], acts[i]) && states[i + 1] == Next(states[i], acts[i])
  }

  ghost predicate IsRun(r: Run) {
    IsPath(r.states, r.acts) && Begins(r.states[0])
  }

  lemma {:induction false} RunInv(r: Run, i: nat)
    requires IsRun(r) && i < |r.states|
    ensures SystemInv(r.states[i])
  {
    if i > 0 {
      RunInv(r, i - 1);
      NextKeepsInv(r.states[i - 1], r.acts[i - 1]);
    }
  }

  // No event is ever stuck: whatever workers crash, answers get lost or clock readings are stale, every
  // event that is not published can be claimed again 60 seconds after it was last written.
  lemma NeverStalls(r: Run, i: nat, e: Id, now: Time)
    requires IsRun(r) && i < |r.states| && e in r.states[i].rows && !r.states[i].rows[e].status.Published?
    ensures e in r.states[i].writtenAt
    ensures r.states[i].writtenAt[e] + MAX_BACKOFF * SECOND <= now ==> Claimable(r.states[i].rows[e], now)
    ensures r.states[i].rows[e].status.Processing? && r.states[i].writtenAt[e] + LEASE <= now ==>
              Claimable(r.states[i].rows[e], now)
  {
    RunInv(r, i);
    assert RowOk(r.states[i], e);
  }

  // An event carries a lease exactly while it is being processed, and is published only if the broker confirmed it.
  lemma StatusTellsTheTruth(r: Run, i: nat, e: Id)
    requires IsRun(r) && i < |r.states| && e in r.states[i].rows
    ensures r.states[i].rows[e].status.Processing? <==> r.states[i].rows[e].leaseUntil.Some?
    ensures r.states[i].rows[e].status.Published? ==> e in r.states[i].acknowledged
  {
    RunInv(r, i);
    assert RowOk(r.states[i], e);
  }

  // ---------------------------------------------------------------- pauses, attempts and publication

  // Between a claim and the end of its lease nobody else can claim the event ...
  lemma ClaimedIsLeased(s: System, p: nat, e: Id, lost: bool, now: Time)
    requires Can(s, Take(p, Some(e), lost)) && now < s.workers[p].now + LEASE
    ensures e in Next(s, Take(p, Some(e), lost)).rows && !Claimable(Next(s, Take(p, Some(e), lost)).rows[e], now)
  {
  }

  // ... and after a failed attempt nobody can until its pause is over, and everybody then.
  lemma FailedAttemptPauses(s: System, p: nat, now: Time)
    requires Can(s, Settle(p, false)) && !s.workers[p].confirmed
    ensures var w, s' := s.workers[p], Next(s, Settle(p, false));
            w.event in s'.rows && (Claimable(s'.rows[w.event], now) <==> w.now + Backoff(w.attempts) <= now)
  {
  }

  // A confirmed attempt publishes the event, if its worker has it by a lease that has not run out.
  lemma ConfirmedIsPublished(r: Run, i: nat, p: nat)
    requires IsRun(r) && i < |r.acts| && r.acts[i] == Settle(p, false) && r.states[i].workers[p].confirmed
    requires OnTimeFor(r, r.states[i].workers[p].event, i)
    ensures var e := r.states[i].workers[p].event;
            e in r.states[i + 1].rows && r.states[i + 1].rows[e].status.Published?
  {
    RunLease(r, i, r.states[i].workers[p].event);
    assert Holds(r.states[i].workers[p], r.states[i].workers[p].event);
  }

  // Claims go by the time an event has been due: nobody is passed over for one that was due later.
  lemma OldestFirst(s: System, p: nat, e: Id, lost: bool, d: Id)
    requires Can(s, Take(p, Some(e), lost)) && d in s.rows && s.rows[d].nextAttemptAt < s.rows[e].nextAttemptAt
    ensures !Claimable(s.rows[d], s.workers[p].now)
  {
  }

  // How often the event has been claimed in the first n steps of the run.
  ghost function ClaimsOf(r: Run, e: Id, n: nat): nat
    requires n <= |r.acts|
  {
    if n == 0 then 0
    else ClaimsOf(r, e, n - 1) + if r.acts[n - 1].Take? && r.acts[n - 1].answer == Some(e) then 1 else 0
  }

  // The attempts that an event records are its claims, so that is what its pause grows with.
  lemma {:induction false} AttemptsAreClaims(r: Run, e: Id, n: nat)
    requires IsRun(r) && n < |r.states|
    ensures if e in r.states[n].rows then r.states[n].rows[e].attempts == ClaimsOf(r, e, n) else ClaimsOf(r, e, n) == 0
  {
    if n > 0 {
      AttemptsAreClaims(r, e, n - 1);
    }
  }

  // ---------------------------------------------------------------- leases

  predicate Holds(w: Worker, e: Id) {
    (w.Publishing? || w.Settling?) && w.event == e
  }

  // Every worker that holds the event is within its lease.
  ghost predicate OnTime(s: System, e: Id) {
    forall p :: p in s.workers && Holds(s.workers[p], e) ==> s.clock < s.workers[p].lease
  }

  // At most one worker holds the event, by the lease the event carries.
  ghost predicate LeaseExcludes(s: System, e: Id) {
    && (forall p :: p in s.workers && Holds(s.workers[p], e) ==>
          && e in s.rows && s.rows[e].status.Processing? && s.rows[e].leaseUntil == Some(s.workers[p].lease))
    && (forall p, q :: p in s.workers && q in s.workers && Holds(s.workers[p], e) && Holds(s.workers[q], e) ==> p == q)
  }

  // A claim finds no event that a worker holds within its lease.
  lemma ClaimedByNobody(s: System, p: nat, e: Id, lost: bool)
    requires SystemInv(s) && LeaseExcludes(s, e) && OnTime(s, e) && Can(s, Take(p, Some(e), lost))
    ensures forall q :: q in s.workers ==> !Holds(s.workers[q], e)
  {
    assert WorkerOk(s, s.workers[p]);
  }

  lemma NextKeepsLease(s: System, a: Act, e: Id)
    requires SystemInv(s) && LeaseExcludes(s, e) && OnTime(s, e) && Can(s, a)
    ensures LeaseExcludes(Next(s, a), e)
  {
    if a.Take? && a.answer == Some(e) {
      ClaimedByNobody(s, a.p, e, a.lost);
    }
    if a.Settle? && s.workers[a.p].event == e {
      assert Holds(s.workers[a.p], e);
    }
  }

  // Nobody has held the event past its lease in the first n states of the run.
  ghost predicate OnTimeFor(r: Run, e: Id, n: nat)
    requires n <= |r.states|
  {
    forall i :: 0 <= i < n ==> OnTime(r.states[i], e)
  }

  lemma {:induction false} RunLease(r: Run, i: nat, e: Id)
    requires IsRun(r) && i < |r.states| && OnTimeFor(r, e, i)
    ensures LeaseExcludes(r.states[i], e)
  {
    if i > 0 {
      RunLease(r, i - 1, e);
      RunInv(r, i - 1);
      NextKeepsLease(r.states[i - 1], r.acts[i - 1], e);
    }
  }

  // As long as nobody has held an event past its lease, no two workers hold it ...
  lemma OneWorkerPerEvent(r: Run, i: nat, p: nat, q: nat, e: Id)
    requires IsRun(r) && i < |r.states| && OnTimeFor(r, e, i) && p in r.states[i].workers && q in r.states[i].workers
    requires Holds(r.states[i].workers[p], e) && Holds(r.states[i].workers[q], e)
    ensures p == q
  {
    RunLease(r, i, e);
  }

  // ... and once published it stays published.
  lemma {:induction false} PublishedStays(r: Run, i: nat, j: nat, e: Id)
    requires IsRun(r) && i <= j < |r.states| && OnTimeFor(r, e, j)
    requires e in r.states[i].rows && r.states[i].rows[e].status.Published?
    ensures e in r.states[j].rows && r.states[j].rows[e] == r.states[i].rows[e]
  {
    if i < j {
      PublishedStays(r, i, j - 1, e);
      PublishedSurvives(r, j - 1, e);
    }
  }

  lemma PublishedSurvives(r: Run, i: nat, e: Id)
    requires IsRun(r) && i < |r.acts| && OnTimeFor(r, e, i)
    requires e in r.states[i].rows && r.states[i].rows[e].status.Published?
    ensures e in r.states[i + 1].rows && r.states[i + 1].rows[e] == r.states[i].rows[e]
  {
    RunLease(r, i, e);
    var s, a := r.states[i], r.acts[i];
    assert a.Settle? ==> Holds(s.workers[a.p], s.workers[a.p].event);
  }

  // So when a step takes back a publication, some worker has held the event past its lease: before that
  // step, though not always the worker that takes the step.
  lemma {:induction false} TakenBackMeansLate(r: Run, i: nat, e: Id) returns (k: nat, p: nat)
    requires IsRun(r) && i < |r.acts|
    requires e in r.states[i].rows && r.states[i].rows[e].status.Published?
    requires !(e in r.states[i + 1].rows && r.states[i + 1].rows[e].status.Published?)
    ensures k < i && p in r.states[k].workers && Holds(r.states[k].workers[p], e)
    ensures r.states[k].workers[p].lease <= r.states[k].clock
  {
    assert !OnTimeFor(r, e, i) by {
      if OnTimeFor(r, e, i) {
        PublishedSurvives(r, i, e);
      }
    }
    k :| 0 <= k < i && !OnTime(r.states[k], e);
    var s := r.states[k];
    p :| p in s.workers && Holds(s.workers[p], e) && s.workers[p].lease <= s.clock;
  }

  // The write after a failed attempt is the one step that can take back a publication: it has no condition
  // on the status.
  lemma WhatUndoesPublished(s: System, a: Act, e: Id)
    requires Can(s, a) && e in s.rows && s.rows[e].status.Published?
    ensures e in Next(s, a).rows
    ensures !Next(s, a).rows[e].status.Published? <==>
              a.Settle? && !a.lost && s.workers[a.p].event == e && !s.workers[a.p].confirmed
  {
  }

  // A run in which that happens: worker 1 is slow, and fails after worker 2 has published the event.
  function SlowState(
    clock: Time, row: OutboxEvent, workers: map<nat, Worker>, writtenAt: Time, confirmed: bool): System
  {
    System(clock, map[0 := row], workers, map[0 := writtenAt], if confirmed then {0} else {})
  }

  const CLAIMED: OutboxEvent := OutboxEvent(7, Processing, 1, 0, Some(LEASE))
  const RECLAIMED: OutboxEvent := OutboxEvent(7, Processing, 2, 0, Some(2 * LEASE))
  const DONE: OutboxEvent := OutboxEvent(7, Published, 2, 0, None)

  function Last(r: Run): System
    requires r.states != []
  {
    r.states[|r.states| - 1]
  }

  lemma Extend(r: Run, a: Act, t: System) returns (r': Run)
    requires IsRun(r) && Can(Last(r), a) && Next(Last(r), a) == t
    ensures IsRun(r') && Last(r') == t && |r'.states| > 1
    ensures r'.states[|r'.states| - 2] == Last(r) && r'.acts[|r'.acts| - 1] == a
  {
    r' := Run(r.states + [t], r.acts + [a]);
  }

  lemma FirstWorkerClaims() returns (r: Run)
    ensures IsRun(r) && Last(r) == SlowState(0, CLAIMED, map[1 := Publishing(0, 1, LEASE)], 0, false)
  {
    var row := OutboxEvent(7, Pending, 0, 0, None);
    r := Run([System(0, map[], map[], map[], {})], []);
    r := Extend(r, Insert(0, 7, 0), SlowState(0, row, map[], 0, false));
    r := Extend(r, Start(1), SlowState(0, row, map[1 := Idle], 0, false));
    r := Extend(r, Look(1), SlowState(0, row, map[1 := Looking(0)], 0, false));
    r := Extend(r, Take(1, Some(0), false), SlowState(0, CLAIMED, map[1 := Publishing(0, 1, LEASE)], 0, false));
  }

  lemma LeaseRunsOut() returns (r: Run)
    ensures IsRun(r)
    ensures Last(r) == SlowState(LEASE, CLAIMED, map[1 := Publishing(0, 1, LEASE), 2 := Looking(LEASE)], 0, false)
  {
    r := FirstWorkerClaims();
    r := Extend(r, Tick(LEASE), SlowState(LEASE, CLAIMED, map[1 := Publishing(0, 1, LEASE)], 0, false));
    r := Extend(r, Start(2), SlowState(LEASE, CLAIMED, map[1 := Publishing(0, 1, LEASE), 2 := Idle], 0, false));
    r := Extend(r, Look(2),
                SlowState(LEASE, CLAIMED, map[1 := Publishing(0, 1, LEASE), 2 := Looking(LEASE)], 0, false));
  }

  lemma SecondWorkerClaims() returns (r: Run)
    ensures IsRun(r)
    ensures var workers := map[1 := Publishing(0, 1, LEASE), 2 := Publishing(0, 2, 2 * LEASE)];
            Last(r) == SlowState(LEASE, RECLAIMED, workers, LEASE, false)
  {
    r := LeaseRunsOut();
    assert Claimed(CLAIMED, LEASE) == RECLAIMED;
    var workers := map[1 := Publishing(0, 1, LEASE), 2 := Publishing(0, 2, 2 * LEASE)];
    r := Extend(r, Take(2, Some(0), false), SlowState(LEASE, RECLAIMED, workers, LEASE, false));
  }

  lemma SecondWorkerPublishes() returns (r: Run)
    ensures IsRun(r)
    ensures Last(r) == SlowState(LEASE, DONE, map[1 := Publishing(0, 1, LEASE), 2 := Idle], LEASE, true)
  {
    r := SecondWorkerClaims();
    var one := Publishing(0, 1, LEASE);
    assert Delivered(RECLAIMED) == DONE;
    r := Extend(r, Publish(2, true),
                SlowState(LEASE, RECLAIMED, map[1 := one, 2 := Settling(0, 2, 2 * LEASE, true, LEASE)], LEASE, true));
    r := Extend(r, Settle(2, false), SlowState(LEASE, DONE, map[1 := one, 2 := Idle], LEASE, true));
  }

  lemma SlowWorkerUndoesPublished() returns (r: Run, i: nat)
    ensures IsRun(r) && i + 1 < |r.states|
    ensures 0 in r.states[i].rows && r.states[i].rows[0].status.Published?
    ensures 0 in r.states[i + 1].rows && r.states[i + 1].rows[0].status.Pending?
  {
    r := SecondWorkerPublishes();
    r := Extend(r, Publish(1, false),
                SlowState(LEASE, DONE, map[1 := Settling(0, 1, LEASE, false, LEASE), 2 := Idle], LEASE, true));
    r := Extend(r, Settle(1, false), SlowState(LEASE, PutBack(DONE, 1, LEASE), map[1 := Idle, 2 := Idle], LEASE, true));
    i := |r.states| - 2;
  }

  // Another run: here the late worker is the one that publishes, and the one within its lease takes it back.
  lemma LateWorkerPublishes() returns (r: Run)
    ensures IsRun(r)
    ensures Last(r) == SlowState(LEASE, DONE, map[1 := Idle, 2 := Publishing(0, 2, 2 * LEASE)], LEASE, true)
  {
    r := SecondWorkerClaims();
    var two := Publishing(0, 2, 2 * LEASE);
    assert Delivered(RECLAIMED) == DONE;
    r := Extend(r, Publish(1, true),
                SlowState(LEASE, RECLAIMED, map[1 := Settling(0, 1, LEASE, true, LEASE), 2 := two], LEASE, true));
    r := Extend(r, Settle(1, false), SlowState(LEASE, DONE, map[1 := Idle, 2 := two], LEASE, true));
  }

  lemma TimelyWorkerUndoesPublished() returns (r: Run, i: nat)
    ensures IsRun(r) && i + 1 < |r.states| && r.acts[i] == Settle(2, false)
    ensures 0 in r.states[i].rows && r.states[i].rows[0].status.Published? && OnTime(r.states[i], 0)
    ensures 2 in r.states[i].workers && r.states[i].clock < r.states[i].workers[2].lease
    ensures 0 in r.states[i + 1].rows && r.states[i + 1].rows[0].status.Pending?
  {
    r := LateWorkerPublishes();
    r := Extend(r, Publish(2, false),
                SlowState(LEASE, DONE, map[1 := Idle, 2 := Settling(0, 2, 2 * LEASE, false, LEASE)], LEASE, true));
    r := Extend(r, Settle(2, false), SlowState(LEASE, PutBack(DONE, 2, LEASE), map[1 := Idle, 2 := Idle], LEASE, true));
    i := |r.states| - 2;
  }
}
