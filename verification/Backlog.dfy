// The expiry worker works off its backlog: every sweep without errors takes `limit` holds off it.
module Backlog {
  import opened Domain
  import opened Database
  import opened StoreInvariant
  import opened Protocol
  import opened ProtocolInvariant
  import opened Runs

  // The holds that were due at time t0 and are still ACTIVE.
  function BacklogAt(db: Db, t0: Time): set<Id> {
    set k | k in db.holds && db.holds[k].status.Active? && db.holds[k].expiresAt <= t0
  }

  // The holds stored in between that were already due at t0.
  function StoredLate(a: Db, b: Db, t0: Time): set<Id> {
    set k | k in b.holds && k !in a.holds && b.holds[k].expiresAt <= t0
  }

  // A sweep of one worker: from the query at step `from` to its answer in state `to`, without errors.
  datatype Span = Span(pid: nat, from: nat, to: nat)

  ghost predicate IsSweep(r: Run, sp: Span, t0: Time, limit: nat) {
    && sp.from < sp.to < |r.states| == |r.labels| + 1
    && MovesAt(r, sp.from, sp.pid)
    && sp.pid in r.states[sp.from].procs
    && r.states[sp.from].procs[sp.pid].call == ExpireDueHolds(limit)
    && r.states[sp.from].procs[sp.pid].pc.SFetch? && t0 <= r.states[sp.from].procs[sp.pid].pc.now
    && r.labels[sp.from].input.reachable
    && exists w :: Answered(r.states[sp.to], sp.pid, Swept(w)) && w.failed == {}
  }

  function SweepOf(pc: Pc): Option<Sweep> {
    match pc
    case SItem(w) => Some(w)
    case SCheck(w) => Some(w)
    case SUnlock(w) => Some(w)
    case Done(Swept(w)) => Some(w)
    case _ => None
  }

  ghost predicate Sweeping(s: State, pid: nat, due: seq<Hold>) {
    && pid in s.procs && s.procs[pid].call.ExpireDueHolds?
    && SweepOf(s.procs[pid].pc).Some? && SweepOf(s.procs[pid].pc).value.due == due
  }

  lemma StepKeepsList(s: State, l: Label, s': State, pid: nat, due: seq<Hold>)
    requires Step(s, l, s') && Sweeping(s, pid, due)
    ensures Sweeping(s', pid, due)
  {
  }

  lemma {:induction false} SweepKeepsList(r: Run, i: nat, j: nat, pid: nat, due: seq<Hold>)
    requires IsRun(r) && i <= j < |r.states| && Sweeping(r.states[i], pid, due)
    ensures Sweeping(r.states[j], pid, due)
  {
    if i < j {
      SweepKeepsList(r, i, j - 1, pid, due);
      StepKeepsList(r.states[j - 1], r.labels[j - 1], r.states[j], pid, due);
    }
  }

  // Without a sweep the backlog grows by what is stored late, and by nothing else.
  lemma BacklogGrowsLate(a: Db, b: Db, t0: Time)
    requires Evolves(a, b)
    ensures BacklogAt(b, t0) <= BacklogAt(a, t0) + StoredLate(a, b, t0)
  {
    forall k | k in BacklogAt(b, t0) && k in a.holds ensures k in BacklogAt(a, t0) {
      assert SameCore(a.holds[k], b.holds[k]);
    }
  }

  lemma LateAddsUp(a: Db, b: Db, c: Db, t0: Time)
    requires Evolves(a, b) && Evolves(b, c)
    ensures |StoredLate(a, b, t0)| + |StoredLate(b, c, t0)| == |StoredLate(a, c, t0)|
  {
    forall k | k in StoredLate(a, b, t0) ensures k in StoredLate(a, c, t0) {
      assert SameCore(b.holds[k], c.holds[k]);
    }
    forall k | k in StoredLate(a, c, t0) && k in b.holds ensures k in StoredLate(a, b, t0) {
      assert SameCore(b.holds[k], c.holds[k]);
    }
    assert StoredLate(a, c, t0) == StoredLate(a, b, t0) + StoredLate(b, c, t0);
  }

  // The query takes the earliest holds first: it covers the backlog, or is full of backlog.
  lemma QueryTakesBacklog(db: Db, now: Time, limit: nat, due: seq<Hold>, t0: Time)
    requires IdsOk(db) && IsDueQuery(db, now, limit, due) && t0 <= now
    ensures BacklogAt(db, t0) <= Ids(due) || (Ids(due) <= BacklogAt(db, t0) && |Ids(due)| == limit)
  {
    IdsSize(due);
    if k :| k in BacklogAt(db, t0) && k !in Ids(due) {
      assert db.holds[k] !in due;
      forall d | d in Ids(due) ensures d in BacklogAt(db, t0) {
        var i :| 0 <= i < |due| && due[i].id == d;
        assert due[i].expiresAt <= db.holds[k].expiresAt;
      }
    }
  }

  lemma SetDrop(before: set<Id>, late: set<Id>, after: set<Id>, taken: set<Id>)
    requires taken <= before && after <= before + late && after !! taken
    ensures |after| + |taken| <= |before| + |late|
  {
    SubsetSize(after + taken, before + late);
    assert |before + late| <= |before| + |late|;
  }

  // What the sweep fetched is not ACTIVE any more when it is done.
  lemma FetchedHoldsEnd(r: Run, sp: Span, t0: Time, limit: nat) returns (due: seq<Hold>)
    requires IsRun(r) && IsSweep(r, sp, t0, limit)
    ensures var s := r.states[sp.from]; IsDueQuery(s.db, s.procs[sp.pid].pc.now, limit, due)
    ensures Ids(due) !! BacklogAt(r.states[sp.to].db, t0)
  {
    due := r.labels[sp.from].input.due;
    assert Step(r.states[sp.from], r.labels[sp.from], r.states[sp.from + 1]);
    SweepKeepsList(r, sp.from + 1, sp.to, sp.pid, due);
    var w :| Answered(r.states[sp.to], sp.pid, Swept(w)) && w.failed == {};
    PcOkInRun(r, sp.to, sp.pid);
    DoneSweepEnds(r.states[sp.to].db, w);
  }

  lemma DoneSweepEnds(db: Db, w: Sweep)
    requires SweepOk(db, w) && w.next == |w.due| && w.failed == {}
    ensures forall k :: k in Ids(w.due) ==> k in db.holds && !db.holds[k].status.Active?
  {
  }

  // One sweep takes `limit` holds off the backlog, or leaves of it only what was stored late meanwhile.
  lemma SweepDrains(r: Run, sp: Span, t0: Time, limit: nat)
    requires IsRun(r) && IsSweep(r, sp, t0, limit)
    ensures var before, after := BacklogAt(r.states[sp.from].db, t0), BacklogAt(r.states[sp.to].db, t0);
            var late := StoredLate(r.states[sp.from].db, r.states[sp.to].db, t0);
            after <= before + late && (after <= late || |after| + limit <= |before| + |late|)
  {
    var before, after := BacklogAt(r.states[sp.from].db, t0), BacklogAt(r.states[sp.to].db, t0);
    RunEvolves(r, sp.from, sp.to);
    BacklogGrowsLate(r.states[sp.from].db, r.states[sp.to].db, t0);
    var due := FetchedHoldsEnd(r, sp, t0, limit);
    StateIds(r, sp.from);
    QueryTakesBacklog(r.states[sp.from].db, r.states[sp.from].procs[sp.pid].pc.now, limit, due, t0);
    if !(before <= Ids(due)) {
      SetDrop(before, StoredLate(r.states[sp.from].db, r.states[sp.to].db, t0), after, Ids(due));
    }
  }

  lemma StateIds(r: Run, i: nat)
    requires IsRun(r) && i < |r.states|
    ensures IdsOk(r.states[i].db)
  {
    RunInv(r, i);
    InvIds(r.states[i].db);
  }

  ghost predicate OneAfterAnother(spans: seq<Span>, start: nat) {
    && (spans != [] ==> start <= spans[0].from)
    && forall k :: 0 <= k < |spans| - 1 ==> spans[k].to <= spans[k + 1].from
  }

  // How many holds that were already due at t0 are stored between two states.
  ghost function Latecomers(r: Run, i: nat, j: nat, t0: Time): nat
    requires i <= j < |r.states|
  {
    |StoredLate(r.states[i].db, r.states[j].db, t0)|
  }

  lemma LatecomersAddUp(r: Run, i: nat, j: nat, k: nat, t0: Time)
    requires IsRun(r) && i <= j <= k < |r.states|
    ensures Latecomers(r, i, j, t0) + Latecomers(r, j, k, t0) == Latecomers(r, i, k, t0)
  {
    RunEvolves(r, i, j);
    RunEvolves(r, j, k);
    LateAddsUp(r.states[i].db, r.states[j].db, r.states[k].db, t0);
  }

  ghost predicate AllSweeps(r: Run, spans: seq<Span>, t0: Time, limit: nat) {
    forall k :: 0 <= k < |spans| ==> IsSweep(r, spans[k], t0, limit)
  }

  // The state in which the last of the sweeps is done.
  function EndOf(spans: seq<Span>, start: nat): nat {
    if spans == [] then start else spans[|spans| - 1].to
  }

  lemma ButLast(r: Run, spans: seq<Span>, start: nat, t0: Time, limit: nat)
    requires spans != [] && OneAfterAnother(spans, start) && AllSweeps(r, spans, t0, limit)
    ensures var rest, last := spans[..|spans| - 1], spans[|spans| - 1];
            && OneAfterAnother(rest, start) && AllSweeps(r, rest, t0, limit)
            && IsSweep(r, last, t0, limit) && EndOf(rest, start) <= last.from
  {
  }

  // m sweeps take m * limit holds off a backlog, or leave of it at most as many as were stored late.
  lemma {:induction false} SweepsDrain(r: Run, spans: seq<Span>, start: nat, t0: Time, limit: nat)
    requires IsRun(r) && start < |r.states| && OneAfterAnother(spans, start) && AllSweeps(r, spans, t0, limit)
    ensures start <= EndOf(spans, start) < |r.states|
    ensures var left := |BacklogAt(r.states[EndOf(spans, start)].db, t0)|;
            var late := Latecomers(r, start, EndOf(spans, start), t0);
            left <= late || left + |spans| * limit <= |BacklogAt(r.states[start].db, t0)| + late
  {
    if spans != [] {
      var rest, last := spans[..|spans| - 1], spans[|spans| - 1];
      ButLast(r, spans, start, t0, limit);
      SweepsDrain(r, rest, start, t0, limit);
      var i := EndOf(rest, start);
      DrainOne(r, i, last, t0, limit);
      LatecomersAddUp(r, start, i, last.to, t0);
      OneMoreSweep(
        |BacklogAt(r.states[start].db, t0)|, |BacklogAt(r.states[i].db, t0)|, |BacklogAt(r.states[last.to].db, t0)|,
        Latecomers(r, start, i, t0), Latecomers(r, i, last.to, t0), |rest|, limit);
    }
  }

  lemma OneMoreSweep(n: nat, before: nat, after: nat, late: nat, later: nat, m: nat, limit: nat)
    requires before <= late || before + m * limit <= n + late
    requires after <= later || after + limit <= before + later
    ensures after <= late + later || after + (m + 1) * limit <= n + (late + later)
  {
    assert (m + 1) * limit == m * limit + limit;
  }

  lemma DrainOne(r: Run, i: nat, sp: Span, t0: Time, limit: nat)
    requires IsRun(r) && i <= sp.from && IsSweep(r, sp, t0, limit)
    ensures var before, after := |BacklogAt(r.states[i].db, t0)|, |BacklogAt(r.states[sp.to].db, t0)|;
            var late := Latecomers(r, i, sp.to, t0);
            after <= late || after + limit <= before + late
  {
    RunEvolves(r, i, sp.from);
    BacklogGrowsLate(r.states[i].db, r.states[sp.from].db, t0);
    SweepDrains(r, sp, t0, limit);
    LatecomersAddUp(r, i, sp.from, sp.to, t0);
    var late := StoredLate(r.states[sp.from].db, r.states[sp.to].db, t0);
    if BacklogAt(r.states[sp.to].db, t0) <= late {
      SubsetSize(BacklogAt(r.states[sp.to].db, t0), late);
    } else {
      UnionSize(BacklogAt(r.states[i].db, t0), StoredLate(r.states[i].db, r.states[sp.from].db, t0));
      SubsetSize(BacklogAt(r.states[sp.from].db, t0),
                 BacklogAt(r.states[i].db, t0) + StoredLate(r.states[i].db, r.states[sp.from].db, t0));
    }
  }

  lemma UnionSize(a: set<Id>, b: set<Id>)
    ensures |a + b| <= |a| + |b|
  {
  }

  // ceil(n / limit) sweeps leave of a backlog of n holds at most as many as were stored late: none at all if
  // no hold was stored that was already due, however many fall due meanwhile.
  lemma BacklogCleared(r: Run, spans: seq<Span>, start: nat, t0: Time, limit: nat)
    requires IsRun(r) && start < |r.states| && limit > 0
    requires OneAfterAnother(spans, start) && AllSweeps(r, spans, t0, limit)
    requires |spans| >= (|BacklogAt(r.states[start].db, t0)| + limit - 1) / limit
    ensures start <= EndOf(spans, start) < |r.states|
    ensures |BacklogAt(r.states[EndOf(spans, start)].db, t0)| <= Latecomers(r, start, EndOf(spans, start), t0)
  {
    SweepsDrain(r, spans, start, t0, limit);
    CeilCovers(|BacklogAt(r.states[start].db, t0)|, limit, |spans|);
  }

  lemma CeilCovers(n: nat, limit: nat, m: nat)
    requires limit > 0 && m >= (n + limit - 1) / limit
    ensures m * limit >= n
  {
    var q := (n + limit - 1) / limit;
    assert q * limit + (n + limit - 1) % limit == n + limit - 1;
    assert m * limit >= q * limit;
  }
}
