// Counting: no seat appears or disappears, and every sold seat is paid for exactly once.
module Conservation {
  import opened Domain
  import opened Database
  import opened StoreInvariant
  import opened Money
  import opened Protocol
  import opened ProtocolInvariant
  import opened Runs

  ghost function Pick(keys: set<Id>): Id
    requires keys != {}
  {
    var k :| k in keys; k
  }

  // The sum of the sizes of a family of sets.
  ghost function SumSizes(m: map<Id, set<SeatRef>>): nat
    decreases |m.Keys|
  {
    if m.Keys == {} then 0
    else
      var k := Pick(m.Keys);
      |m[k]| + SumSizes(m - {k})
  }

  function Union(m: map<Id, set<SeatRef>>): set<SeatRef> {
    set k, r | k in m && r in m[k] :: r
  }

  ghost predicate Disjoint(m: map<Id, set<SeatRef>>) {
    forall a, b :: a in m && b in m && a != b ==> m[a] !! m[b]
  }

  lemma UnionSplit(m: map<Id, set<SeatRef>>, k: Id)
    requires Disjoint(m) && k in m
    ensures Disjoint(m - {k})
    ensures Union(m) == m[k] + Union(m - {k}) && m[k] !! Union(m - {k})
  {
    var rest := m - {k};
    forall r | r in Union(m) ensures r in m[k] + Union(rest) {
      var a :| a in m && r in m[a];
      assert a == k || (a in rest && rest[a] == m[a] && r in Union(rest));
    }
    forall r | r in Union(rest) ensures r !in m[k] {
      var a :| a in rest && r in rest[a];
      assert m[a] !! m[k];
    }
  }

  lemma {:induction false} DisjointUnionSize(m: map<Id, set<SeatRef>>)
    requires Disjoint(m)
    ensures |Union(m)| == SumSizes(m)
    decreases |m.Keys|
  {
    if m.Keys == {} {
      assert Union(m) == {};
    } else {
      var k := Pick(m.Keys);
      UnionSplit(m, k);
      assert (m - {k}).Keys == m.Keys - {k};
      DisjointUnionSize(m - {k});
    }
  }

  function SeatsWith(db: Db, status: SeatStatus): set<SeatRef> {
    set r | r in db.seats && db.seats[r].status == status
  }

  // The seats of each booking, and of each confirmed hold.
  function Sold(db: Db): map<Id, set<SeatRef>> {
    map b | b in db.bookings :: BookingRefs(db.bookings[b])
  }

  function Confirmed(db: Db): map<Id, set<SeatRef>> {
    map k | k in db.holds && db.holds[k].status.Confirmed? :: Refs(db.holds[k])
  }

  lemma SoldSeats(db: Db)
    requires SeatsOk(db) && BookingsOk(db)
    ensures Disjoint(Sold(db)) && Union(Sold(db)) == SeatsWith(db, Booked)
  {
    forall b | b in db.bookings
      ensures forall r :: r in BookingRefs(db.bookings[b]) ==>
                r in db.seats && db.seats[r].status.Booked? && db.seats[r].bookingId == Some(b)
    {
      assert BookingOk(db, b);
    }
    forall r | r in SeatsWith(db, Booked) ensures r in Union(Sold(db)) {
      assert SeatOk(db, r);
      assert db.seats[r].bookingId.value in Sold(db);
    }
  }

  // A booking and its hold name the same seats, and each has the other.
  lemma BookingsMatchHolds(db: Db)
    requires HoldsOk(db) && BookingsOk(db)
    ensures forall b :: b in Sold(db) ==>
              db.bookings[b].hold in Confirmed(db) && Confirmed(db)[db.bookings[b].hold] == Sold(db)[b]
    ensures forall k :: k in Confirmed(db) ==> HasBooking(db, k)
  {
    forall k | k in Confirmed(db) ensures HasBooking(db, k) {
      assert HoldOk(db, k);
    }
    forall b | b in db.bookings
      ensures db.bookings[b].hold in Confirmed(db) && Confirmed(db)[db.bookings[b].hold] == Sold(db)[b]
    {
      assert BookingOk(db, b);
    }
  }

  lemma ConfirmedDisjoint(db: Db)
    requires HoldsOk(db) && BookingsOk(db) && Disjoint(Sold(db))
    ensures Disjoint(Confirmed(db))
  {
    BookingsMatchHolds(db);
    forall a, b | a in Confirmed(db) && b in Confirmed(db) && a != b ensures Confirmed(db)[a] !! Confirmed(db)[b] {
      assert HasBooking(db, a) && HasBooking(db, b);
      var x :| x in db.bookings && db.bookings[x].hold == a;
      var y :| y in db.bookings && db.bookings[y].hold == b;
      assert x in Sold(db) && y in Sold(db) && x != y;
    }
  }

  lemma ConfirmedSeats(db: Db)
    requires HoldsOk(db) && BookingsOk(db)
    ensures Union(Confirmed(db)) == Union(Sold(db))
  {
    BookingsMatchHolds(db);
    forall r | r in Union(Confirmed(db)) ensures r in Union(Sold(db)) {
      var k :| k in Confirmed(db) && r in Confirmed(db)[k];
      assert HasBooking(db, k);
      var b :| b in db.bookings && db.bookings[b].hold == k;
      assert b in Sold(db) && r in Sold(db)[b];
    }
    forall r | r in Union(Sold(db)) ensures r in Union(Confirmed(db)) {
      var b :| b in Sold(db) && r in Sold(db)[b];
      assert db.bookings[b].hold in Confirmed(db);
    }
  }

  lemma StatusesPartition(db: Db)
    ensures |SeatsWith(db, Available)| + |SeatsWith(db, Locked)| + |SeatsWith(db, Booked)| == |db.seats.Keys|
  {
    var a, l, b := SeatsWith(db, Available), SeatsWith(db, Locked), SeatsWith(db, Booked);
    assert a !! l && (a + l) !! b && db.seats.Keys == a + l + b;
    ThreeParts(a, l, b);
  }

  lemma ThreeParts(a: set<SeatRef>, b: set<SeatRef>, c: set<SeatRef>)
    requires a !! b && (a + b) !! c
    ensures |a + b + c| == |a| + |b| + |c|
  {
    assert |a + b| == |a| + |b|;
  }

  // In every reachable state: the booked seats number as many as the seats of all bookings, and of all
  // confirmed holds; and the seats that are available, locked and booked together are those there were
  // at the start.
  lemma SeatsConserved(r: Run, i: nat)
    requires IsRun(r) && i < |r.states|
    ensures var db := r.states[i].db;
            && |SeatsWith(db, Booked)| == SumSizes(Sold(db)) == SumSizes(Confirmed(db))
            && |SeatsWith(db, Available)| + |SeatsWith(db, Locked)| + |SeatsWith(db, Booked)|
                 == |r.states[0].db.seats.Keys|
  {
    RunInv(r, i);
    RunEvolves(r, 0, i);
    var db := r.states[i].db;
    SoldSeats(db);
    ConfirmedDisjoint(db);
    ConfirmedSeats(db);
    DisjointUnionSize(Sold(db));
    DisjointUnionSize(Confirmed(db));
    StatusesPartition(db);
  }

  // Every booking lists each seat of its hold once, at the price and under the label the seat had from
  // the start, in label order, and its total is their sum.
  lemma BookingsAddUp(r: Run, i: nat, b: Id)
    requires IsRun(r) && i < |r.states| && b in r.states[i].db.bookings
    ensures var k := r.states[i].db.bookings[b];
            && k.hold in r.states[i].db.holds && BookingRefs(k) == Refs(r.states[i].db.holds[k.hold])
            && InLabelOrder(k.lines) && |k.lines| == |BookingRefs(k)|
            && (-TWO_TO_63 <= Sum(k.lines) < TWO_TO_63 ==> k.total == Sum(k.lines))
            && forall l :: l in k.lines ==>
                 var ref := SeatRef(k.showtime, l.seat);
                 && ref in r.states[0].db.seats
                 && l.price == r.states[0].db.seats[ref].price
                 && l.seatLabel == r.states[0].db.seats[ref].seatLabel
  {
    RunEvolves(r, 0, i);
    var db := r.states[i].db;
    BookingOkInRun(r, i, b);
    HoldOkInRun(r, i, db.bookings[b].hold);
    WrapExact(Sum(db.bookings[b].lines));
  }
}
