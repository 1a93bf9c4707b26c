// The lines of a booking: their sum, which the program keeps in 64 bits, and their order.
module Money {
  import opened Domain
  import opened Sorting

  const TWO_TO_63: int := 0x8000_0000_0000_0000
  const TWO_TO_64: int := 0x1_0000_0000_0000_0000

  // Two's complement wrap-around of a 64-bit integer.
  function Wrap(n: int): int {
    (n + TWO_TO_63) % TWO_TO_64 - TWO_TO_63
  }

  // The total is the sum itself unless it leaves the range of a 64-bit integer, and then only then.
  lemma WrapExact(n: int)
    ensures Wrap(n) == n <==> -TWO_TO_63 <= n < TWO_TO_63
  {
  }

  function Sum(lines: seq<Line>): int {
    if lines == [] then 0 else lines[0].price + Sum(lines[1..])
  }

  // The stored total of a list of lines.
  function Amount(lines: seq<Line>): int {
    Wrap(Sum(lines))
  }

  predicate LabelLe(a: Line, b: Line) {
    StringLe(a.seatLabel, b.seatLabel)
  }

  ghost predicate InLabelOrder(lines: seq<Line>) {
    Sorted(lines, LabelLe)
  }

  lemma LabelOrder()
    ensures Total(LabelLe) && Transitive(LabelLe)
  {
    StringOrder();
    assert forall a: Line, b: Line :: StringLe(a.seatLabel, b.seatLabel) || StringLe(b.seatLabel, a.seatLabel);
  }

  lemma {:induction false} SumAppend(a: seq<Line>, l: Line)
    ensures Sum(a + [l]) == Sum(a) + l.price
  {
    if a == [] {
      assert a + [l] == [l];
    } else {
      assert (a + [l])[1..] == a[1..] + [l];
      SumAppend(a[1..], l);
    }
  }

  lemma {:induction false} SumInsert(l: Line, lines: seq<Line>)
    ensures Sum(Insert(l, lines, LabelLe)) == l.price + Sum(lines)
  {
    if lines == [] || LabelLe(l, lines[0]) {
      assert ([l] + lines)[1..] == lines;
    } else {
      SumInsert(l, lines[1..]);
      assert ([lines[0]] + Insert(l, lines[1..], LabelLe))[1..] == Insert(l, lines[1..], LabelLe);
    }
  }

  // Putting the lines in order does not change what they cost.
  lemma {:induction false} SumSort(lines: seq<Line>)
    ensures Sum(Sort(lines, LabelLe)) == Sum(lines)
  {
    if lines != [] {
      SumSort(lines[1..]);
      SumInsert(lines[0], Sort(lines[1..], LabelLe));
    }
  }

  lemma WrapAdd(a: int, b: int)
    ensures Wrap(Wrap(a) + b) == Wrap(a + b)
  {
    var k := -((a + TWO_TO_63) / TWO_TO_64);
    assert Wrap(a) == a + k * TWO_TO_64;
    WrapShift(a + b, k);
  }

  lemma WrapShift(n: int, k: int)
    ensures Wrap(n + k * TWO_TO_64) == Wrap(n)
  {
    var m := n + TWO_TO_63;
    assert (m + k * TWO_TO_64) % TWO_TO_64 == m % TWO_TO_64;
  }

  function LineOf(seat: Id, s: Seat): Line {
    Line(seat, s.seatLabel, s.price)
  }

  function LinesOf(seats: map<SeatRef, Seat>, order: seq<SeatRef>): (lines: seq<Line>)
    requires forall r :: r in order ==> r in seats
  {
    seq(|order|, i requires 0 <= i < |order| => LineOf(order[i].seat, seats[order[i]]))
  }

  // The loop of Confirm over the seats it read: collect the lines, add up the prices, sort by label.
  method BuildLines(seats: map<SeatRef, Seat>, order: seq<SeatRef>) returns (lines: seq<Line>, total: int)
    requires forall r :: r in order ==> r in seats
    ensures lines == Sort(LinesOf(seats, order), LabelLe) && total == Amount(lines)
    ensures InLabelOrder(lines) && multiset(lines) == multiset(LinesOf(seats, order))
  {
    lines, total := [], 0;
    for i := 0 to |order|
      invariant lines == LinesOf(seats, order)[..i]
      invariant total == Amount(lines)
    {
      var line := LineOf(order[i].seat, seats[order[i]]);
      AmountAppend(lines, line);
      lines := lines + [line];
      total := Wrap(total + line.price);
    }
    assert lines == LinesOf(seats, order);
    SortKeepsAmount(lines);
    lines := Sort(lines, LabelLe);
  }

  lemma AmountAppend(lines: seq<Line>, line: Line)
    ensures Amount(lines + [line]) == Wrap(Amount(lines) + line.price)
  {
    SumAppend(lines, line);
    WrapAdd(Sum(lines), line.price);
  }

  lemma SortKeepsAmount(lines: seq<Line>)
    ensures Amount(Sort(lines, LabelLe)) == Amount(lines) && InLabelOrder(Sort(lines, LabelLe))
  {
    SumSort(lines);
    LabelOrder();
    SortSorts(lines, LabelLe);
  }
}
