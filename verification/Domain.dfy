// Documents of the booking system, as they are stored.
//
// Object ids, UUIDs and booking numbers are plain numbers here; the module Naming says how they are
// written as strings. Times are whole milliseconds, the precision the database keeps.
module Domain {

  datatype Option<+T> = None | Some(value: T)

  type Id = nat
  type Time = int

  // A showtime seat is named by its showtime and its seat: that pair is a unique index.
  datatype SeatRef = SeatRef(showtime: Id, seat: Id)

  datatype SeatStatus = Available | Locked | Booked

  datatype Seat = Seat(
    seatLabel: string, price: int, status: SeatStatus,
    holdId: Option<Id>, lockedBy: Option<Id>, lockExpiresAt: Option<Time>,
    bookingId: Option<Id>, version: nat)

  datatype HoldStatus = Active | Confirmed | Expired | Released

  datatype Hold = Hold(
    id: Id, user: Id, showtime: Id, seats: seq<Id>, token: Id,
    status: HoldStatus, expiresAt: Time, key: Id)

  datatype Line = Line(seat: Id, seatLabel: string, price: int)

  datatype Booking = Booking(
    id: Id, number: Id, hold: Id, user: Id, showtime: Id,
    lines: seq<Line>, total: int, key: Id)

  datatype Reason = Manual | Timeout

  datatype Audit =
    | SeatReleased(hold: Id, reason: Reason)
    | BookingTimeout(hold: Id)
    | BookingSuccess(booking: Id)

  datatype OutboxStatus = Pending | Processing | Published

  datatype OutboxEvent = OutboxEvent(
    booking: Id, status: OutboxStatus, attempts: nat,
    nextAttemptAt: Time, leaseUntil: Option<Time>)

  // The value a Redis seat key holds while a hold owns it.
  datatype Owner = Owner(hold: Id, user: Id, token: Id)

  function Refs(h: Hold): set<SeatRef> {
    set s | s in h.seats :: SeatRef(h.showtime, s)
  }

  function BookingRefs(b: Booking): set<SeatRef> {
    set l | l in b.lines :: SeatRef(b.showtime, l.seat)
  }

  // A hold is for one to ten seats.
  const MAX_SEATS: nat := 10

  predicate FewSeats(seats: seq<Id>) {
    0 < |seats| <= MAX_SEATS
  }

  function OwnerOf(h: Hold): Owner {
    Owner(h.id, h.user, h.token)
  }

  // The seat keys of a hold, in the order of its seat list.
  function KeysOf(h: Hold): (keys: seq<SeatRef>)
    ensures forall r :: r in keys <==> r in Refs(h)
  {
    var keys := seq(|h.seats|, i requires 0 <= i < |h.seats| => SeatRef(h.showtime, h.seats[i]));
    assert forall r :: r in Refs(h) ==> r in keys by {
      forall r | r in Refs(h) ensures r in keys {
        var i :| 0 <= i < |h.seats| && SeatRef(h.showtime, h.seats[i]) == r;
        assert keys[i] == r;
      }
    }
    keys
  }

  function Ids(due: seq<Hold>): set<Id> {
    set h | h in due :: h.id
  }

  lemma {:induction false} IdsSize(due: seq<Hold>)
    requires forall i, j :: 0 <= i < j < |due| ==> due[i].id != due[j].id
    ensures |Ids(due)| == |due|
  {
    if due == [] {
      assert Ids(due) == {};
    } else {
      var rest := due[..|due| - 1];
      var last := due[|due| - 1];
      IdsSize(rest);
      assert due == rest + [last];
      assert Ids(due) == Ids(rest) + {last.id};
      assert last.id !in Ids(rest);
    }
  }

  // What never changes in a stored hold: everything but its status.
  predicate SameCore(a: Hold, b: Hold) {
    a.(status := Active) == b.(status := Active)
  }

  lemma RefsSize(h: Hold)
    ensures |Refs(h)| <= |h.seats|
  {
    SeqRefsSize(h.showtime, h.seats);
  }

  lemma {:induction false} SeqRefsSize(showtime: Id, seats: seq<Id>)
    ensures |set s | s in seats :: SeatRef(showtime, s)| <= |seats|
  {
    if seats == [] {
      assert (set s | s in seats :: SeatRef(showtime, s)) == {};
    } else {
      SeqRefsSize(showtime, seats[1..]);
      assert (set s | s in seats :: SeatRef(showtime, s))
        == {SeatRef(showtime, seats[0])} + (set s | s in seats[1..] :: SeatRef(showtime, s));
    }
  }

  lemma SubsetSize<T>(a: set<T>, b: set<T>)
    requires a <= b
    ensures |a| <= |b|
    ensures |a| == |b| ==> a == b
  {
    assert b == a + (b - a);
  }
}
