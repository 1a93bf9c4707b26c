// Two requests with one idempotency key, at the same time: only one of them gets the hold.
//
// Runs.ExistingHoldExactly says when a request is answered with an existing hold. A repeat that looks for
// the hold before it is stored is refused by Redis for as long as its twin holds the keys, and so never
// comes to its second query: it is told that its seats are taken.
module Race {
  import opened Domain
  import opened Database
  import opened StoreInvariant
  import opened RedisLock
  import opened Protocol
  import opened ProtocolInvariant
  import opened Timed
  import opened TimedRuns

  predicate SameAsked(h: Hold, call: Call)
    requires call.CreateHold?
  {
    SameRequest(h, call.showtime, call.seats)
  }

  // What the first query of a CreateHold decides.
  lemma LookupDecides(db: Db, call: Call, input: Input)
    requires call.CreateHold? && IndexesOk(db) && FewSeats(call.seats) && input.reachable
    ensures var pc := AfterLookup(db, call, input);
            && ((exists h :: pc == Done(HoldMade(h, true))) <==>
                  exists k :: IsHoldFor(db, k, call.user, call.key) && SameAsked(db.holds[k], call))
            && (pc == Done(Rejected(KeyReused)) <==>
                  exists k :: IsHoldFor(db, k, call.user, call.key) && !SameAsked(db.holds[k], call))
            && (pc == CClock <==> forall k :: !IsHoldFor(db, k, call.user, call.key))
  {
    if k :| IsHoldFor(db, k, call.user, call.key) {
      StoredHoldIsFound(db, call.user, call.key, k);
    }
  }

  // ---------------------------------------------------------------- who is refused

  ghost predicate SharesSeat(a: Hold, b: Hold) {
    exists ref :: ref in Refs(a) && ref in Refs(b)
  }

  lemma HeldKeysBlock(w: World, a: Hold, h: Hold)
    requires KeysHeld(w.redis, h) && w.clock < h.expiresAt && SharesSeat(a, h)
    ensures !AllFree(w.redis, KeysOf(a), w.clock)
  {
    var ref :| ref in Refs(a) && ref in Refs(h);
    assert IsLive(w.redis, ref, w.clock);
  }

  // The request does not get its keys, and is told so.
  ghost predicate RefusedKeys(w: World, pid: nat, input: Input, w': World) {
    && !input.redis.Yes? && w'.redis == w.redis && w'.core.db == w.core.db
    && At(w', pid, Done(Rejected(if input.redis.No? then SeatUnavailable else LockServiceUnavailable)))
  }

  lemma BlockedIsRefused(r: TimedRun, i: nat, pid: nat, a: Hold, now: Time, input: Input, h: Hold)
    requires IsTimedRun(r) && i < |r.turns| && At(r.worlds[i], pid, CAcquire(a, now))
    requires r.turns[i] == Act(Move(pid, input))
    requires KeysHeld(r.worlds[i].redis, h) && r.worlds[i].clock < h.expiresAt && SharesSeat(a, h)
    ensures RefusedKeys(r.worlds[i], pid, input, r.worlds[i + 1])
  {
    HeldKeysBlock(r.worlds[i], a, h);
    PcOkInRun(r, i, pid);
    assert WorldStep(r.worlds[i], r.turns[i], r.worlds[i + 1]);
  }

  // A request that shares a seat with a live hold never gets its keys ...
  lemma LiveHoldBlocks(r: TimedRun, i: nat, pid: nat, a: Hold, now: Time, input: Input, k: Id)
    requires IsTimedRun(r) && i < |r.turns| && At(r.worlds[i], pid, CAcquire(a, now))
    requires r.turns[i] == Act(Move(pid, input))
    requires IsLiveHold(r.worlds[i], k) && SharesSeat(a, r.worlds[i].core.db.holds[k])
    ensures RefusedKeys(r.worlds[i], pid, input, r.worlds[i + 1])
  {
    LiveHoldInRun(r, i, k);
    BlockedIsRefused(r, i, pid, a, now, input, r.worlds[i].core.db.holds[k]);
  }

  // ... nor does one that shares a seat with a request that has its keys and has yet to store its hold.
  lemma PreparedHoldBlocks(
    r: TimedRun, i: nat, pid: nat, a: Hold, now: Time, input: Input, q: nat, h: Hold, since: Time)
    requires IsTimedRun(r) && i < |r.turns| && At(r.worlds[i], pid, CAcquire(a, now))
    requires r.turns[i] == Act(Move(pid, input))
    requires At(r.worlds[i], q, CInsert(h, since)) && r.worlds[i].clock < h.expiresAt && SharesSeat(a, h)
    ensures RefusedKeys(r.worlds[i], pid, input, r.worlds[i + 1])
  {
    PcOkInRun(r, i, q);
    BlockedIsRefused(r, i, pid, a, now, input, h);
  }

  // ---------------------------------------------------------------- the race

  const TTL: Time := 300_000
  const SEAT: SeatRef := SeatRef(1, 2)
  const REQUEST: Call := CreateHold(7, 1, [2], 9)
  const FIRST: Hold := Hold(100, 7, 1, [2], 50, Active, TTL, 9)
  const SECOND: Hold := Hold(101, 7, 1, [2], 51, Active, TTL, 9)

  function Meets(redis: RedisAnswer, id: Id, token: Id): Input {
    Input(0, redis, true, false, true, id, token, 0, 0, [], [])
  }

  const ONE: Input := Meets(Yes, 100, 50)
  const TWO: Input := Meets(No, 101, 51)

  function Empty(): Db {
    Db(map[SEAT := Seat("A1", 100, Available, None, None, None, None, 0)], map[], map[], multiset{}, map[])
  }

  function Both(first: Pc, second: Pc): map<nat, Proc> {
    map[1 := Proc(REQUEST, first), 2 := Proc(REQUEST, second)]
  }

  function Scene(procs: map<nat, Proc>, redis: Keyspace, issued: map<Id, nat>): World {
    World(State(TTL, Empty(), procs), 0, redis, issued)
  }

  function Last(r: TimedRun): World
    requires r.worlds != []
  {
    r.worlds[|r.worlds| - 1]
  }

  lemma Extend(r: TimedRun, l: Label, w: World) returns (r': TimedRun)
    requires IsTimedRun(r) && WorldStep(Last(r), Act(l), w)
    ensures IsTimedRun(r') && Last(r') == w
  {
    r' := TimedRun(r.worlds + [w], r.turns + [Act(l)]);
  }

  function Moved(w: World, pid: nat, db: Db, pc: Pc): World
    requires pid in w.core.procs
  {
    w.(core := State(w.core.ttl, db, w.core.procs[pid := Proc(w.core.procs[pid].call, pc)]))
  }

  // The steps that touch no key and draw no id.
  predicate IsPlain(pc: Pc) {
    !pc.Done? && !pc.CPrepare? && !pc.FVerify? && Mover(pc).None?
  }

  lemma PlainStep(w: World, pid: nat, input: Input, db: Db, pc: Pc)
    requires pid in w.core.procs && IsPlain(w.core.procs[pid].pc) && input.time == w.clock
    requires var p := w.core.procs[pid];
             ValidInput(w.core.db, p.call, p.pc, input)
             && Advance(w.core.ttl, w.core.db, p.call, p.pc, input) == (db, pc)
    ensures WorldStep(w, Act(Move(pid, input)), Moved(w, pid, db, pc))
  {
  }

  // Both requests look for the hold before it is stored.
  lemma BothLook() returns (r: TimedRun)
    ensures IsTimedRun(r) && Last(r) == Scene(Both(CClock, CClock), map[], map[])
  {
    r := TimedRun([Scene(map[], map[], map[])], []);
    r := Extend(r, Begin(1, REQUEST), Scene(map[1 := Proc(REQUEST, CLookup)], map[], map[]));
    r := Extend(r, Begin(2, REQUEST), Scene(Both(CLookup, CLookup), map[], map[]));
    r := Extend(r, Move(1, ONE), Scene(Both(CClock, CLookup), map[], map[]));
    r := Extend(r, Move(2, TWO), Scene(Both(CClock, CClock), map[], map[]));
  }

  lemma BothReadTheClock() returns (r: TimedRun)
    ensures IsTimedRun(r) && Last(r) == Scene(Both(CPrepare(0), CPrepare(0)), map[], map[])
  {
    r := BothLook();
    r := Extend(r, Move(1, ONE), Scene(Both(CPrepare(0), CClock), map[], map[]));
    r := Extend(r, Move(2, TWO), Scene(Both(CPrepare(0), CPrepare(0)), map[], map[]));
  }

  lemma BothPrepare() returns (r: TimedRun)
    ensures IsTimedRun(r)
    ensures Last(r) == Scene(Both(CAcquire(FIRST, 0), CAcquire(SECOND, 0)), map[], map[100 := 1, 101 := 2])
  {
    r := BothReadTheClock();
    OneSeat(FIRST);
    OneSeat(SECOND);
    r := Extend(r, Move(1, ONE), Scene(Both(CAcquire(FIRST, 0), CPrepare(0)), map[], map[100 := 1]));
    r := Extend(r, Move(2, TWO), Scene(Both(CAcquire(FIRST, 0), CAcquire(SECOND, 0)), map[], map[100 := 1, 101 := 2]));
  }

  lemma OneSeat(h: Hold)
    requires h.showtime == 1 && h.seats == [2]
    ensures Refs(h) == {SEAT} && KeysOf(h) == [SEAT] && Found(Empty(), h) == {SEAT}
  {
  }

  const LOCKS: Keyspace := map[SEAT := Entry(OwnerOf(FIRST), TTL)]

  // The first takes the key ...
  lemma FirstAcquires() returns (r: TimedRun)
    ensures IsTimedRun(r)
    ensures Last(r) == Scene(Both(CInsert(FIRST, 0), CAcquire(SECOND, 0)), LOCKS, map[100 := 1, 101 := 2])
  {
    r := BothPrepare();
    OneSeat(FIRST);
    assert AllFree(map[], [SEAT], 0) && Acquired(map[], [SEAT], OwnerOf(FIRST), 0, TTL) == LOCKS;
    r := Extend(r, Move(1, ONE), Scene(Both(CInsert(FIRST, 0), CAcquire(SECOND, 0)), LOCKS, map[100 := 1, 101 := 2]));
  }

  // ... and the second is refused it.
  lemma SecondIsRefused() returns (r: TimedRun)
    ensures IsTimedRun(r)
    ensures Last(r) == Scene(Both(CInsert(FIRST, 0), Done(Rejected(SeatUnavailable))), LOCKS, map[100 := 1, 101 := 2])
  {
    r := FirstAcquires();
    OneSeat(SECOND);
    assert IsLive(LOCKS, SEAT, 0) && !AllFree(LOCKS, [SEAT], 0);
    r := Extend(r, Move(2, TWO),
                Scene(Both(CInsert(FIRST, 0), Done(Rejected(SeatUnavailable))), LOCKS, map[100 := 1, 101 := 2]));
  }

  // The database once the first hold is stored.
  function Held(): Db {
    Db(map[SEAT := Seat("A1", 100, Locked, Some(100), Some(7), Some(TTL), None, 1)], map[100 := FIRST], map[],
       multiset{}, map[])
  }

  lemma FirstCommits()
    ensures HoldTx(Empty(), FIRST, 0) == Commit(Held())
  {
    OneSeat(FIRST);
    var hit := Matching(Empty().seats, {SEAT}, s => Takeable(s, 0));
    assert hit == {SEAT};
    assert Rewrite(Empty().seats, hit, s => LockSeat(s, FIRST)) == Held().seats;
  }

  lemma FirstIsStored() returns (r: TimedRun)
    ensures IsTimedRun(r)
    ensures Last(r) == World(State(TTL, Held(), Both(Done(HoldMade(FIRST, false)), Done(Rejected(SeatUnavailable)))), 0,
                             LOCKS, map[100 := 1, 101 := 2])
  {
    r := SecondIsRefused();
    FirstCommits();
    var procs := Both(Done(HoldMade(FIRST, false)), Done(Rejected(SeatUnavailable)));
    r := Extend(r, Move(1, ONE), Last(r).(core := State(TTL, Held(), procs)));
  }

  lemma TwinIsRefused() returns (r: TimedRun, i: nat)
    ensures IsTimedRun(r) && i < |r.worlds|
    ensures At(r.worlds[i], 1, Done(HoldMade(FIRST, false))) && At(r.worlds[i], 2, Done(Rejected(SeatUnavailable)))
    ensures r.worlds[i].core.procs[1].call == r.worlds[i].core.procs[2].call
  {
    r := FirstIsStored();
    i := |r.worlds| - 1;
  }
}
