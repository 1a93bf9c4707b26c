// The seat map in the browser: a REST snapshot, brought up to date with buffered and live events.
module SeatMap {
  import opened Domain

  datatype SeatView = SeatView(id: Id, status: SeatStatus)

  datatype Message =
    | Unreadable
    | Snapshot
    | Change(ids: seq<Id>, status: SeatStatus)
    | Unknown

  function Touched(seat: SeatView, ids: seq<Id>, status: SeatStatus): SeatView {
    if seat.id in ids then seat.(status := status) else seat
  }

  // apply
  function Recolour(seats: seq<SeatView>, ids: seq<Id>, status: SeatStatus): (r: seq<SeatView>)
    ensures |r| == |seats|
  {
    seq(|seats|, i requires 0 <= i < |seats| => Touched(seats[i], ids, status))
  }

  // applyEvent
  function Applied(seats: seq<SeatView>, m: Message): (r: seq<SeatView>)
    ensures |r| == |seats|
  {
    if m.Change? then Recolour(seats, m.ids, m.status) else seats
  }

  function ApplyAll(seats: seq<SeatView>, ms: seq<Message>): (r: seq<SeatView>)
    ensures |r| == |seats|
  {
    if ms == [] then seats else Applied(ApplyAll(seats, ms[..|ms| - 1]), ms[|ms| - 1])
  }

  // ---------------------------------------------------------------- the component

  datatype View = View(
    seats: seq<SeatView>, syncing: bool, buffered: seq<Message>,
    generation: nat, request: nat, snapshotSeen: bool, closed: bool)

  predicate Current(v: View, generation: nat, request: nat) {
    generation == v.generation && request == v.request && !v.closed
  }

  function SyncStarted(v: View): View {
    v.(request := v.request + 1, syncing := true)
  }

  function SyncDone(v: View, generation: nat, request: nat, seats: seq<SeatView>): View {
    if !Current(v, generation, request) then v
    else v.(seats := ApplyAll(seats, v.buffered), buffered := [], syncing := false)
  }

  function SyncFailed(v: View, generation: nat, request: nat): View {
    if !Current(v, generation, request) then v else v.(syncing := false)
  }

  function Connected(v: View): View {
    v.(generation := v.generation + 1, syncing := true, buffered := [], snapshotSeen := false)
  }

  function Received(v: View, generation: nat, m: Message): View {
    if generation != v.generation || v.closed || m.Unreadable? then v
    else if m.Snapshot? then (if v.snapshotSeen then v else SyncStarted(v.(snapshotSeen := true)))
    else if v.syncing then v.(buffered := v.buffered + [m])
    else v.(seats := Applied(v.seats, m))
  }

  class SeatsView {
    var seats: seq<SeatView>
    var syncing: bool
    var buffered: seq<Message>
    var generation: nat
    var request: nat
    var snapshotSeen: bool
    var closed: bool

    ghost function State(): View
      reads this
    {
      View(seats, syncing, buffered, generation, request, snapshotSeen, closed)
    }

    constructor ()
      ensures State() == View([], false, [], 0, 0, false, false)
    {
      seats, syncing, buffered := [], false, [];
      generation, request := 0, 0;
      snapshotSeen, closed := false, false;
    }

    method Apply(ids: seq<Id>, status: SeatStatus)
      modifies `seats
      ensures seats == Recolour(old(seats), ids, status)
    {
      var next: seq<SeatView> := [];
      for i := 0 to |seats|
        invariant seats == old(seats)
        invariant next == Recolour(old(seats), ids, status)[..i]
      {
        next := next + [if seats[i].id in ids then seats[i].(status := status) else seats[i]];
      }
      seats := next;
    }

    method ApplyEvent(m: Message)
      modifies `seats
      ensures seats == Applied(old(seats), m)
    {
      if m.Change? {
        Apply(m.ids, m.status);
      }
    }

    // synchronizeSeats up to its request; the rest runs when the response is there.
    method StartSync() returns (ticket: nat)
      modifies this
      ensures State() == SyncStarted(old(State())) && ticket == request
    {
      request := request + 1;
      syncing := true;
      ticket := request;
    }

    method FinishSync(forGeneration: nat, ticket: nat, current: seq<SeatView>)
      modifies this
      ensures State() == SyncDone(old(State()), forGeneration, ticket, current)
    {
      if forGeneration != generation || ticket != request || closed {
        return;
      }
      seats := current;
      var pending := buffered;
      buffered := [];
      for i := 0 to |pending|
        invariant seats == ApplyAll(current, pending[..i])
        invariant State() == old(State()).(seats := seats, buffered := [])
      {
        ApplyEvent(pending[i]);
        assert pending[..i + 1][..i] == pending[..i];
      }
      assert pending[..|pending|] == pending;
      syncing := false;
    }

    method FailSync(forGeneration: nat, ticket: nat)
      modifies this
      ensures State() == SyncFailed(old(State()), forGeneration, ticket)
    {
      if forGeneration != generation || ticket != request || closed {
        return;
      }
      syncing := false;
    }

    method Connect()
      modifies this
      ensures State() == Connected(old(State()))
    {
      generation := generation + 1;
      syncing := true;
      buffered := [];
      snapshotSeen := false;
    }

    method OnMessage(fromGeneration: nat, m: Message)
      modifies this
      ensures State() == Received(old(State()), fromGeneration, m)
    {
      if fromGeneration != generation || closed || m.Unreadable? {
        return;
      }
      if m.Snapshot? {
        if !snapshotSeen {
          snapshotSeen := true;
          var _ := StartSync();
        }
        return;
      }
      if syncing {
        buffered := buffered + [m];
      } else {
        ApplyEvent(m);
      }
    }
  }

  // ---------------------------------------------------------------- replaying events twice

  lemma {:induction false} ApplyAllAppend(seats: seq<SeatView>, a: seq<Message>, b: seq<Message>)
    ensures ApplyAll(seats, a + b) == ApplyAll(ApplyAll(seats, a), b)
  {
    if b == [] {
      assert a + b == a;
    } else {
      assert (a + b)[..|a + b| - 1] == a + b[..|b| - 1];
      ApplyAllAppend(seats, a, b[..|b| - 1]);
    }
  }

  // The status of one seat, following the events that name it.
  function StatusAfter(id: Id, status: SeatStatus, ms: seq<Message>): SeatStatus {
    if ms == [] then status
    else
      var m := ms[|ms| - 1];
      if m.Change? && id in m.ids then m.status else StatusAfter(id, status, ms[..|ms| - 1])
  }

  lemma {:induction false} ApplyAllAt(seats: seq<SeatView>, ms: seq<Message>, i: nat)
    requires i < |seats|
    ensures ApplyAll(seats, ms)[i] == SeatView(seats[i].id, StatusAfter(seats[i].id, seats[i].status, ms))
  {
    if ms != [] {
      ApplyAllAt(seats, ms[..|ms| - 1], i);
    }
  }

  // Only the last event on a seat matters, so a stretch may be replayed.
  lemma {:induction false} StatusReplay(id: Id, status: SeatStatus, ms: seq<Message>)
    ensures StatusAfter(id, StatusAfter(id, status, ms), ms) == StatusAfter(id, status, ms)
  {
    if ms != [] {
      StatusReplay(id, status, ms[..|ms| - 1]);
    }
  }

  lemma ApplyAllTwice(seats: seq<SeatView>, ms: seq<Message>)
    ensures ApplyAll(ApplyAll(seats, ms), ms) == ApplyAll(seats, ms)
  {
    forall i: nat | i < |seats| ensures ApplyAll(ApplyAll(seats, ms), ms)[i] == ApplyAll(seats, ms)[i] {
      ApplyAllAt(ApplyAll(seats, ms), ms, i);
      ApplyAllAt(seats, ms, i);
      StatusReplay(seats[i].id, seats[i].status, ms);
    }
  }

  // A snapshot of prefix k followed by events j .. n - 1, with j <= k <= n, is prefix n.
  lemma OverlapConverges(base: seq<SeatView>, log: seq<Message>, j: nat, k: nat, n: nat)
    requires j <= k <= n <= |log|
    ensures ApplyAll(ApplyAll(base, log[..k]), log[j..n]) == ApplyAll(base, log[..n])
  {
    var a, b, c := log[..j], log[j..k], log[k..n];
    assert log[..k] == a + b && log[j..n] == b + c && log[..n] == log[..k] + c;
    ApplyAllAppend(base, a, b);
    ApplyAllAppend(ApplyAll(base, log[..k]), b, c);
    ApplyAllTwice(ApplyAll(base, a), b);
    ApplyAllAppend(base, log[..k], c);
  }

  // ---------------------------------------------------------------- the component and the server

  // A response on its way: for which connection it was asked, how long the log was then, and whether
  // that connection had shown its snapshot message.
  datatype Ticket = Ticket(generation: nat, since: nat, afterSnapshot: bool)

  // The log holds the changes of the showtime in database order. The socket of the current connection
  // joins the room at some point of the log and from there on delivers one event after another.
  //
  // Four variables record the history: `from` is where the buffer began, `base` the prefix the last
  // accepted response showed, `tracked` says that such a response was asked for after the connection's
  // snapshot message, and `clean` that no resynchronisation has failed on this connection.
  datatype Web = Web(
    view: View, initial: seq<SeatView>, log: seq<Message>, joined: bool, received: nat, pending: map<nat, Ticket>,
    from: nat, base: nat, tracked: bool, clean: bool)

  datatype Event =
    | Publish(m: Message)
    | Open
    | Join
    | Deliver
    | Greet
    | Stray(generation: nat, m: Message)
    | Resync
    | Respond(ticket: nat, prefix: nat)
    | Fail(ticket: nat)
    | Leave

  function Asked(w: Web, view: View): Web {
    w.(view := view,
       pending := w.pending[view.request := Ticket(view.generation, |w.log|, w.joined && view.snapshotSeen)],
       from := if w.view.syncing then w.from else w.received)
  }

  predicate CanHappen(w: Web, e: Event) {
    match e
    case Publish(m) => m.Change?
    case Open => !w.view.closed
    case Join => !w.joined && w.view.generation > 0
    case Deliver => w.joined && w.received < |w.log|
    case Greet => w.joined && !w.view.snapshotSeen && !w.view.closed
    case Stray(g, _) => g != w.view.generation
    case Resync => true
    case Respond(t, k) => t in w.pending && w.pending[t].since <= k <= |w.log|
    case Fail(t) => t in w.pending
    case Leave => true
  }

  function Happened(w: Web, e: Event): Web
    requires CanHappen(w, e)
  {
    match e
    case Publish(m) => w.(log := w.log + [m])
    case Open => w.(view := Connected(w.view), joined := false, tracked := false, clean := true)
    case Join => w.(joined := true, received := |w.log|, from := |w.log|)
    case Deliver => w.(view := Received(w.view, w.view.generation, w.log[w.received]), received := w.received + 1)
    case Greet => Asked(w, Received(w.view, w.view.generation, Snapshot))
    case Stray(g, m) => w.(view := Received(w.view, g, m))
    case Resync => Asked(w, SyncStarted(w.view))
    case Respond(t, k) =>
      var p := w.pending[t];
      var shown := ApplyAll(w.initial, w.log[..k]);
      var w' := w.(view := SyncDone(w.view, p.generation, t, shown), pending := w.pending - {t});
      if Current(w.view, p.generation, t) then w'.(base := k, tracked := w.clean && p.afterSnapshot) else w'
    case Fail(t) =>
      var p := w.pending[t];
      var w' := w.(view := SyncFailed(w.view, p.generation, t), pending := w.pending - {t});
      if Current(w.view, p.generation, t) then w'.(clean := false, tracked := false) else w'
    case Leave => w.(view := w.view.(closed := true), tracked := false)
  }

  ghost predicate Begins(w: Web) {
    && w.view == View([], false, [], 0, 0, false, false)
    && w.log == [] && !w.joined && w.received == 0 && w.pending == map[]
    && w.from == 0 && w.base == 0 && !w.tracked && w.clean
  }

  // The history variables describe the buffer and the requests on their way.
  ghost predicate BufferOk(w: Web) {
    && w.received <= |w.log| && w.base <= |w.log|
    && (forall i :: 0 <= i < |w.log| ==> w.log[i].Change?)
    && (w.view.snapshotSeen ==> w.joined)
    && (!w.joined && w.clean ==> w.view.buffered == [])
    && (w.joined && w.clean && !w.view.closed ==>
          && w.from <= w.received
          && w.view.buffered == if w.view.syncing then w.log[w.from..w.received] else [])
  }

  ghost predicate TicketsOk(w: Web) {
    && (forall t :: t in w.pending ==>
          && t <= w.view.request && w.pending[t].since <= |w.log|
          && w.pending[t].generation <= w.view.generation
          && (w.pending[t].afterSnapshot && w.pending[t].generation == w.view.generation ==> w.view.snapshotSeen))
    && (w.view.request in w.pending && w.pending[w.view.request].afterSnapshot
        && w.pending[w.view.request].generation == w.view.generation && w.clean && !w.view.closed ==>
          w.view.syncing && w.from <= w.pending[w.view.request].since)
  }

  // A tracked map is its snapshot and everything received since the buffer began.
  ghost predicate TrackedOk(w: Web) {
    w.tracked ==>
      && w.joined && w.clean && !w.view.closed && w.view.snapshotSeen
      && (w.view.request in w.pending && w.pending[w.view.request].generation == w.view.generation ==>
            w.pending[w.view.request].afterSnapshot)
      && (!w.view.syncing ==>
            && w.from <= w.base && w.from <= w.received <= |w.log|
            && w.base <= |w.log|
            && w.view.seats == ApplyAll(ApplyAll(w.initial, w.log[..w.base]), w.log[w.from..w.received]))
  }

  ghost predicate WebInv(w: Web) {
    BufferOk(w) && TicketsOk(w) && TrackedOk(w)
  }

  lemma BeginsInv(w: Web)
    requires Begins(w)
    ensures WebInv(w)
  {
  }

  // The log only grows, so what was cut out of it stays the same.
  lemma LogGrows(log: seq<Message>, m: Message, a: nat, b: nat)
    requires a <= b <= |log|
    ensures (log + [m])[a..b] == log[a..b] && (log + [m])[..a] == log[..a]
  {
  }

  lemma StretchGrows(log: seq<Message>, a: nat, b: nat)
    requires a <= b < |log|
    ensures log[a..b + 1] == log[a..b] + [log[b]] && log[a..b + 1][..b - a] == log[a..b]
  {
  }

  lemma PublishKeeps(w: Web, m: Message)
    requires WebInv(w) && m.Change?
    ensures WebInv(Happened(w, Publish(m)))
  {
    LogGrows(w.log, m, w.base, w.base);
    if w.from <= w.received {
      LogGrows(w.log, m, w.from, w.received);
    }
  }

  lemma DeliverKeeps(w: Web)
    requires WebInv(w) && CanHappen(w, Deliver)
    ensures WebInv(Happened(w, Deliver))
  {
    if w.from <= w.received {
      StretchGrows(w.log, w.from, w.received);
    }
  }

  lemma RespondKeeps(w: Web, t: nat, k: nat)
    requires WebInv(w) && CanHappen(w, Respond(t, k))
    ensures WebInv(Happened(w, Respond(t, k)))
  {
    assert w.pending[t].since <= k;
  }

  lemma AskKeeps(w: Web, e: Event)
    requires WebInv(w) && CanHappen(w, e) && (e.Greet? || e.Resync?)
    ensures WebInv(Happened(w, e))
  {
    assert w.log[w.received..w.received] == [];
  }

  lemma RestKeeps(w: Web, e: Event)
    requires WebInv(w) && CanHappen(w, e) && (e.Open? || e.Join? || e.Stray? || e.Fail? || e.Leave?)
    ensures WebInv(Happened(w, e))
  {
    assert w.log[|w.log|..|w.log|] == [];
  }

  lemma EventKeepsInv(w: Web, e: Event)
    requires WebInv(w) && CanHappen(w, e)
    ensures WebInv(Happened(w, e))
  {
    match e
    case Publish(m) => PublishKeeps(w, m);
    case Deliver => DeliverKeeps(w);
    case Respond(t, k) => RespondKeeps(w, t, k);
    case Greet => AskKeeps(w, e);
    case Resync => AskKeeps(w, e);
    case _ => RestKeeps(w, e);
  }

  datatype WebRun = WebRun(webs: seq<Web>, events: seq<Event>)

  ghost predicate IsTurn(w: Web, e: Event, w': Web) {
    CanHappen(w, e) && w' == Happened(w, e)
  }

  ghost predicate IsWebRun(r: WebRun) {
    && |r.webs| == |r.events| + 1
    && Begins(r.webs[0])
    && forall i {:trigger r.events[i]} :: 0 <= i < |r.events| ==> IsTurn(r.webs[i], r.events[i], r.webs[i + 1])
  }

  lemma Turn(r: WebRun, i: nat)
    requires IsWebRun(r) && i < |r.events|
    ensures CanHappen(r.webs[i], r.events[i]) && r.webs[i + 1] == Happened(r.webs[i], r.events[i])
  {
    assert IsTurn(r.webs[i], r.events[i], r.webs[i + 1]);
  }

  lemma {:induction false} WebRunInv(r: WebRun, i: nat)
    requires IsWebRun(r) && i < |r.webs|
    ensures WebInv(r.webs[i])
  {
    if i == 0 {
      BeginsInv(r.webs[0]);
    } else {
      WebRunInv(r, i - 1);
      Turn(r, i - 1);
      EventKeepsInv(r.webs[i - 1], r.events[i - 1]);
    }
  }

  // Whenever a tracked map is not synchronising and the socket has reached the prefix its snapshot
  // showed, the map is exactly the prefix of the log received so far; and once the socket has caught up
  // with the log, it is the database.
  lemma MapConverges(r: WebRun, i: nat)
    requires IsWebRun(r) && i < |r.webs| && r.webs[i].tracked && !r.webs[i].view.syncing
    ensures r.webs[i].received <= |r.webs[i].log|
    ensures r.webs[i].base <= r.webs[i].received ==>
              r.webs[i].view.seats == ApplyAll(r.webs[i].initial, r.webs[i].log[..r.webs[i].received])
    ensures r.webs[i].received == |r.webs[i].log| ==>
              r.webs[i].view.seats == ApplyAll(r.webs[i].initial, r.webs[i].log)
  {
    WebRunInv(r, i);
    var w := r.webs[i];
    if w.base <= w.received {
      OverlapConverges(w.initial, w.log, w.from, w.base, w.received);
    }
    assert w.log[..|w.log|] == w.log;
  }

  // ---------------------------------------------------------------- late responses

  // A later request or connection has begun, or the page has been left.
  predicate Superseded(w: Web, t: nat)
    requires t in w.pending
  {
    t < w.view.request || w.pending[t].generation < w.view.generation || w.view.closed
  }

  // Requests and connections are numbered upwards, and a request on its way stays as it was asked.
  ghost predicate GrowsFrom(a: Web, b: Web) {
    && a.view.request <= b.view.request && a.view.generation <= b.view.generation
    && (a.view.closed ==> b.view.closed)
  }

  lemma NumbersGrow(w: Web, e: Event)
    requires CanHappen(w, e)
    ensures GrowsFrom(w, Happened(w, e))
  {
  }

  lemma TicketKept(w: Web, e: Event, t: nat)
    requires CanHappen(w, e) && t <= w.view.request && t in Happened(w, e).pending
    ensures t in w.pending && Happened(w, e).pending[t] == w.pending[t]
  {
  }

  lemma TurnGrows(r: WebRun, i: nat)
    requires IsWebRun(r) && i < |r.events|
    ensures GrowsFrom(r.webs[i], r.webs[i + 1])
  {
    Turn(r, i);
    NumbersGrow(r.webs[i], r.events[i]);
  }

  lemma {:induction false} RunGrows(r: WebRun, i: nat, j: nat)
    requires IsWebRun(r) && i <= j < |r.webs|
    ensures GrowsFrom(r.webs[i], r.webs[j])
  {
    if i < j {
      assert GrowsFrom(r.webs[i], r.webs[j - 1]) by { RunGrows(r, i, j - 1); }
      assert GrowsFrom(r.webs[j - 1], r.webs[j]) by { TurnGrows(r, j - 1); }
    }
  }

  lemma TurnKeepsTicket(r: WebRun, i: nat, t: nat)
    requires IsWebRun(r) && i < |r.events| && t <= r.webs[i].view.request && t in r.webs[i + 1].pending
    ensures t in r.webs[i].pending && r.webs[i + 1].pending[t] == r.webs[i].pending[t]
  {
    Turn(r, i);
    TicketKept(r.webs[i], r.events[i], t);
  }

  lemma {:induction false} TicketStays(r: WebRun, i: nat, j: nat, t: nat)
    requires IsWebRun(r) && i <= j < |r.webs| && t <= r.webs[i].view.request && t in r.webs[j].pending
    ensures t in r.webs[i].pending && r.webs[j].pending[t] == r.webs[i].pending[t]
  {
    if i < j {
      assert t <= r.webs[j - 1].view.request by { RunGrows(r, i, j - 1); }
      assert t in r.webs[j - 1].pending && r.webs[j].pending[t] == r.webs[j - 1].pending[t] by {
        TurnKeepsTicket(r, j - 1, t);
      }
      TicketStays(r, i, j - 1, t);
    }
  }

  lemma TicketIsNumbered(r: WebRun, i: nat, t: nat)
    requires IsWebRun(r) && i < |r.webs| && t in r.webs[i].pending
    ensures t <= r.webs[i].view.request
  {
    WebRunInv(r, i);
  }

  lemma SupersededStays(r: WebRun, i: nat, j: nat, t: nat)
    requires IsWebRun(r) && i <= j < |r.webs| && t in r.webs[i].pending && Superseded(r.webs[i], t)
    requires t in r.webs[j].pending
    ensures Superseded(r.webs[j], t)
  {
    TicketIsNumbered(r, i, t);
    RunGrows(r, i, j);
    TicketStays(r, i, j, t);
  }

  lemma LateChangesNothing(w: Web, e: Event, t: nat)
    requires CanHappen(w, e) && (e == Fail(t) || (e.Respond? && e.ticket == t)) && Superseded(w, t)
    ensures Happened(w, e).view == w.view
  {
  }

  // Once that is so for a request on its way, neither its response nor its failure ever changes the view.
  lemma LateResponseIgnored(r: WebRun, i: nat, j: nat, t: nat)
    requires IsWebRun(r) && i <= j < |r.events| && t in r.webs[i].pending && Superseded(r.webs[i], t)
    requires r.events[j] == Fail(t) || (r.events[j].Respond? && r.events[j].ticket == t)
    ensures r.webs[j + 1].view == r.webs[j].view
  {
    Turn(r, j);
    SupersededStays(r, i, j, t);
    LateChangesNothing(r.webs[j], r.events[j], t);
  }

  // ---------------------------------------------------------------- from the snapshot message on

  // A map stays tracked until its connection is replaced, a resynchronisation fails or the page is left.
  lemma TrackingLasts(w: Web, e: Event)
    requires WebInv(w) && CanHappen(w, e) && w.tracked && !Happened(w, e).tracked
    ensures e.Open? || e.Leave? || (e.Fail? && Current(w.view, w.pending[e.ticket].generation, e.ticket))
  {
  }

  // It becomes tracked exactly by the first current response asked for after the snapshot message.
  lemma TrackingStarts(w: Web, e: Event)
    requires CanHappen(w, e) && !w.tracked
    ensures Happened(w, e).tracked <==>
              && e.Respond? && Current(w.view, w.pending[e.ticket].generation, e.ticket)
              && w.clean && w.pending[e.ticket].afterSnapshot
  {
  }

  predicate FailsLatest(w: Web, t: nat) {
    t in w.pending && Current(w.view, w.pending[t].generation, t)
  }

  // Nothing in the run between lo and hi replaces the connection, leaves the page or fails the latest request.
  ghost predicate Undisturbed(r: WebRun, lo: nat, hi: nat)
    requires IsWebRun(r) && hi <= |r.events|
  {
    forall i {:trigger r.events[i]} :: lo <= i < hi ==>
      && !r.events[i].Open? && !r.events[i].Leave?
      && !(r.events[i].Fail? && FailsLatest(r.webs[i], r.events[i].ticket))
  }

  lemma UndisturbedTurn(r: WebRun, lo: nat, i: nat, hi: nat)
    requires IsWebRun(r) && lo <= i < hi <= |r.events| && Undisturbed(r, lo, hi)
    ensures Undisturbed(r, lo, i)
    ensures r.webs[i].clean ==> r.webs[i + 1].clean
    ensures r.webs[i].clean && r.webs[i].tracked ==> r.webs[i + 1].tracked
    ensures r.webs[i + 1].view.generation == r.webs[i].view.generation
    ensures r.webs[i + 1].view.closed == r.webs[i].view.closed
    ensures r.webs[i].view.snapshotSeen ==> r.webs[i + 1].view.snapshotSeen
    ensures r.webs[i].joined ==> r.webs[i + 1].joined
  {
    WebRunInv(r, i);
    Turn(r, i);
  }

  lemma Opens(w: Web, e: Event)
    requires CanHappen(w, e) && e.Open?
    ensures Happened(w, e).clean && !Happened(w, e).view.closed
  {
  }

  lemma Greets(w: Web, e: Event)
    requires CanHappen(w, e) && e.Greet?
    ensures Happened(w, e).joined && Happened(w, e).view.snapshotSeen
  {
  }

  // From an Open on, the connection is the current one and no synchronisation has failed on it.
  lemma {:induction false} SinceOpen(r: WebRun, o: nat, j: nat)
    requires IsWebRun(r) && o < j < |r.webs| && r.events[o].Open? && Undisturbed(r, o + 1, j)
    ensures r.webs[j].clean && !r.webs[j].view.closed && r.webs[j].view.generation == r.webs[o + 1].view.generation
  {
    if o + 1 < j {
      UndisturbedTurn(r, o + 1, j - 1, j);
      SinceOpen(r, o, j - 1);
    } else {
      Turn(r, o);
      Opens(r.webs[o], r.events[o]);
    }
  }

  lemma {:induction false} SinceGreeting(r: WebRun, g: nat, j: nat)
    requires IsWebRun(r) && g < j < |r.webs| && r.events[g].Greet? && Undisturbed(r, g + 1, j)
    ensures r.webs[j].joined && r.webs[j].view.snapshotSeen
  {
    if g + 1 < j {
      UndisturbedTurn(r, g + 1, j - 1, j);
      SinceGreeting(r, g, j - 1);
    } else {
      Turn(r, g);
      Greets(r.webs[g], r.events[g]);
    }
  }

  lemma {:induction false} TrackedSince(r: WebRun, i: nat, j: nat)
    requires IsWebRun(r) && i <= j < |r.webs| && r.webs[i].tracked && r.webs[i].clean && Undisturbed(r, i, j)
    ensures r.webs[j].tracked && r.webs[j].clean
  {
    if i < j {
      UndisturbedTurn(r, i, j - 1, j);
      TrackedSince(r, i, j - 1);
    }
  }

  // The connection opens, its snapshot message arrives, a request asked for with or after that message gets
  // its response as the latest one, and since the opening nothing has disturbed the connection.
  ghost predicate Synchronised(r: WebRun, open: nat, greet: nat, ask: nat, respond: nat, j: nat)
    requires IsWebRun(r)
  {
    && open < greet <= ask < respond < j < |r.webs|
    && r.events[open].Open? && r.events[greet].Greet? && (r.events[ask].Greet? || r.events[ask].Resync?)
    && r.events[respond].Respond? && r.events[respond].ticket == r.webs[ask + 1].view.request
    && r.events[respond].ticket == r.webs[respond].view.request
    && Undisturbed(r, open + 1, j)
  }

  lemma AskedAfterSnapshot(r: WebRun, open: nat, greet: nat, ask: nat, respond: nat, j: nat)
    requires IsWebRun(r) && Synchronised(r, open, greet, ask, respond, j)
    ensures r.webs[ask + 1].view.request in r.webs[ask + 1].pending
    ensures r.webs[ask + 1].pending[r.webs[ask + 1].view.request].afterSnapshot
    ensures r.webs[ask + 1].pending[r.webs[ask + 1].view.request].generation == r.webs[open + 1].view.generation
  {
    Turn(r, ask);
    SinceOpen(r, open, ask);
    SinceGreeting(r, greet, ask + 1);
  }

  lemma BecomesTracked(r: WebRun, open: nat, greet: nat, ask: nat, respond: nat, j: nat)
    requires IsWebRun(r) && Synchronised(r, open, greet, ask, respond, j)
    ensures r.webs[respond + 1].tracked && r.webs[respond + 1].clean
  {
    var w, t := r.webs[respond], r.events[respond].ticket;
    Turn(r, respond);
    AskedAfterSnapshot(r, open, greet, ask, respond, j);
    TicketStays(r, ask + 1, respond, t);
    SinceOpen(r, open, respond);
    if !w.tracked {
      TrackingStarts(w, r.events[respond]);
    }
  }

  // ---------------------------------------------------------------- a synchronisation ends

  predicate IsIdle(v: View) {
    !v.syncing && v.buffered == []
  }

  // The response to the latest request ends the synchronisation, with nothing left in the buffer.
  lemma ResponseEndsSync(r: WebRun, i: nat, t: nat)
    requires IsWebRun(r) && i < |r.events| && r.events[i].Respond? && r.events[i].ticket == t
    requires t in r.webs[i].pending && Current(r.webs[i].view, r.webs[i].pending[t].generation, t)
    ensures IsIdle(r.webs[i + 1].view) && !r.webs[i + 1].view.closed
  {
    Turn(r, i);
  }

  // Its failure ends it, too.
  lemma FailureEndsSync(r: WebRun, i: nat, t: nat)
    requires IsWebRun(r) && i < |r.events| && r.events[i] == Fail(t) && FailsLatest(r.webs[i], t)
    ensures !r.webs[i + 1].view.syncing
  {
    Turn(r, i);
  }

  // No synchronisation is asked for.
  predicate AsksNothing(e: Event) {
    !e.Greet? && !e.Resync? && !e.Open?
  }

  ghost predicate NothingAsked(r: WebRun, lo: nat, hi: nat)
    requires hi <= |r.events|
  {
    forall i {:trigger r.events[i]} :: lo <= i < hi ==> AsksNothing(r.events[i])
  }

  lemma TurnStaysIdle(r: WebRun, i: nat)
    requires IsWebRun(r) && i < |r.events| && IsIdle(r.webs[i].view) && AsksNothing(r.events[i])
    ensures IsIdle(r.webs[i + 1].view)
  {
    Turn(r, i);
    WebRunInv(r, i);
  }

  // From there on nothing is buffered until the next one is asked for ...
  lemma {:induction false} StaysIdle(r: WebRun, i: nat, j: nat)
    requires IsWebRun(r) && i <= j < |r.webs| && IsIdle(r.webs[i].view) && NothingAsked(r, i, j)
    ensures IsIdle(r.webs[j].view)
  {
    if i < j {
      StaysIdle(r, i, j - 1);
      TurnStaysIdle(r, j - 1);
    }
  }

  // ... and every change that arrives shows at once: its status on the seats it names, and on no other.
  lemma ArrivalShows(r: WebRun, i: nat, s: nat)
    requires IsWebRun(r) && i < |r.events| && r.events[i].Deliver? && IsIdle(r.webs[i].view) && !r.webs[i].view.closed
    requires s < |r.webs[i].view.seats|
    ensures r.webs[i].received < |r.webs[i].log| && r.webs[i].log[r.webs[i].received].Change?
    ensures |r.webs[i + 1].view.seats| == |r.webs[i].view.seats|
    ensures var m := r.webs[i].log[r.webs[i].received];
            var seat, seat' := r.webs[i].view.seats[s], r.webs[i + 1].view.seats[s];
            seat'.id == seat.id && seat'.status == if seat.id in m.ids then m.status else seat.status
  {
    Turn(r, i);
    WebRunInv(r, i);
  }

  // A response shows the seats of its snapshot, with all that was buffered on top.
  lemma ResponseShows(r: WebRun, i: nat, t: nat, k: nat)
    requires IsWebRun(r) && i < |r.events| && r.events[i] == Respond(t, k)
    requires t in r.webs[i].pending && Current(r.webs[i].view, r.webs[i].pending[t].generation, t)
    ensures r.webs[i + 1].view.seats
         == ApplyAll(ApplyAll(r.webs[i].initial, r.webs[i].log[..k]), r.webs[i].view.buffered)
  {
    Turn(r, i);
  }

  lemma IdleSince(r: WebRun, open: nat, greet: nat, ask: nat, respond: nat, j: nat)
    requires IsWebRun(r) && Synchronised(r, open, greet, ask, respond, j) && NothingAsked(r, respond + 1, j)
    ensures !r.webs[j].view.syncing
  {
    var t := r.events[respond].ticket;
    Turn(r, respond);
    AskedAfterSnapshot(r, open, greet, ask, respond, j);
    TicketStays(r, ask + 1, respond, t);
    SinceOpen(r, open, respond);
    ResponseEndsSync(r, respond, t);
    StaysIdle(r, respond + 1, j);
  }

  // From then on the map is idle until a synchronisation is asked for again; and whenever it is idle, it is
  // what the log says: exactly the changes that have arrived, once they include all that the snapshot showed,
  // and the database once all have arrived.
  lemma MapFollowsLog(r: WebRun, open: nat, greet: nat, ask: nat, respond: nat, j: nat)
    requires IsWebRun(r) && Synchronised(r, open, greet, ask, respond, j)
    ensures NothingAsked(r, respond + 1, j) ==> !r.webs[j].view.syncing
    ensures var w := r.webs[j];
            !w.view.syncing ==>
              && w.received <= |w.log|
              && (w.base <= w.received ==> w.view.seats == ApplyAll(w.initial, w.log[..w.received]))
              && (w.received == |w.log| ==> w.view.seats == ApplyAll(w.initial, w.log))
  {
    BecomesTracked(r, open, greet, ask, respond, j);
    TrackedSince(r, respond + 1, j);
    if NothingAsked(r, respond + 1, j) {
      IdleSince(r, open, greet, ask, respond, j);
    }
    if !r.webs[j].view.syncing {
      MapConverges(r, j);
    }
  }
}
