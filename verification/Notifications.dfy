// Consuming booking.confirmed: one email and one record per event, with three retries and a dead-letter queue.
module Notifications {
  import opened Domain

  const MAX_RETRY: int := 3

  // The x-retry-count header: the kinds of number headerInt accepts, or anything else.
  datatype Header = Number(n: int) | NotANumber

  function HeaderInt(h: Header): int {
    if h.Number? then h.n else 0
  }

  // A message: its event id, empty or not, and its header.
  datatype Copy = Copy(event: Option<Id>, header: Header)

  // PublishRetry takes the numbers of the three retry queues only.
  predicate IsRetryNumber(retry: int) {
    1 <= retry <= MAX_RETRY
  }

  datatype Fate = Acknowledged | Retry(header: Header) | DeadLettered

  // What RunNotifications does with a delivery, given what became of its handling and of a retry publication.
  function FateOf(header: Header, handled: bool, retryPublished: bool): Fate {
    var retry := HeaderInt(header) + 1;
    if handled then Acknowledged
    else if retry <= MAX_RETRY && IsRetryNumber(retry) && retryPublished then Retry(Number(retry))
    else DeadLettered
  }

  // What a call of notify finds out on its way.
  datatype Findings = Findings(
    readable: bool, storeUp: bool, bookingFound: bool, sent: bool, insertUp: bool)

  // When notify returns without an error.
  predicate Notifies(records: set<Id>, event: Option<Id>, f: Findings) {
    && f.readable && event.Some? && f.storeUp
    && (event.value in records || (f.bookingFound && f.sent && f.insertUp))
  }

  class Consumer {
    // The notifications collection, by its unique index on event_id.
    var records: set<Id>

    constructor ()
      ensures records == {}
    {
      records := {};
    }

    method Notify(event: Option<Id>, f: Findings) returns (ok: bool)
      modifies this
      ensures ok <==> Notifies(old(records), event, f)
      ensures records == if ok then old(records) + {event.value} else old(records)
    {
      if !f.readable {
        return false;
      }
      if event.None? {
        return false;
      }
      if f.storeUp && event.value in records {
        return true;
      }
      if !f.storeUp || !f.bookingFound || !f.sent {
        return false;
      }
      if !f.insertUp {
        return false;
      }
      records := records + {event.value};
      return true;
    }

    // One turn of the loop of RunNotifications.
    method Handle(copy: Copy, f: Findings, brokerUp: bool) returns (fate: Fate)
      modifies this
      ensures fate == FateOf(copy.header, Notifies(old(records), copy.event, f), brokerUp)
      ensures records == if fate.Acknowledged? then old(records) + {copy.event.value} else old(records)
    {
      var retryCount := HeaderInt(copy.header);
      var ok := Notify(copy.event, f);
      if ok {
        return Acknowledged;
      }
      var retry := retryCount + 1;
      if retry <= MAX_RETRY {
        if IsRetryNumber(retry) && brokerUp {
          return Retry(Number(retry));
        }
      }
      return DeadLettered;
    }
  }

  // ---------------------------------------------------------------- the life of a message

  // Where a message is. A delivered message is with one consumer, which first looks for the record,
  // then sends, then inserts the record: other consumers may come in between.
  datatype Place = Queued | Checking | Sending | Recording | Failing | Waiting | Done | Dead

  // `handled` counts the deliveries, `headers` lists the retry counts they were handled with.
  datatype Message = Message(copy: Copy, place: Place, handled: nat, counts: seq<int>)

  datatype System = System(messages: map<nat, Message>, records: set<Id>, sent: multiset<Id>)

  datatype Act =
    | Publish(m: nat, copy: Copy)
    | Deliver(m: nat)
    | Check(m: nat, ok: bool)
    | Send(m: nat, ok: bool)
    | Record(m: nat, ok: bool)
    | Settle(m: nat, retryPublished: bool)
    | Return(m: nat)

  predicate IsAt(s: System, m: nat, p: Place) {
    m in s.messages && s.messages[m].place == p
  }

  predicate Can(s: System, a: Act) {
    match a
    case Publish(m, _) => m !in s.messages
    case Deliver(m) => IsAt(s, m, Queued)
    case Check(m, _) => IsAt(s, m, Checking)
    case Send(m, _) => IsAt(s, m, Sending)
    case Record(m, _) => IsAt(s, m, Recording)
    case Settle(m, _) => IsAt(s, m, Failing)
    case Return(m) => IsAt(s, m, Waiting)
  }

  function Moved(s: System, m: nat, p: Place): System
    requires m in s.messages
  {
    s.(messages := s.messages[m := s.messages[m].(place := p)])
  }

  function Next(s: System, a: Act): System
    requires Can(s, a)
  {
    match a
    case Publish(m, copy) =>
      s.(messages := s.messages[m := Message(copy, Queued, 0, [])])
    case Deliver(m) =>
      var x := s.messages[m];
      s.(messages := s.messages[m := Message(x.copy, Checking, x.handled + 1, x.counts + [HeaderInt(x.copy.header)])])
    case Check(m, ok) =>
      // Unreadable body, missing event id or unreachable store: failure. A record that is there: success.
      var event := s.messages[m].copy.event;
      if !ok || event.None? then Moved(s, m, Failing)
      else if event.value in s.records then Moved(s, m, Done)
      else Moved(s, m, Sending)
    case Send(m, ok) =>
      if ok && s.messages[m].copy.event.Some?
      then Moved(s, m, Recording).(sent := s.sent + multiset{s.messages[m].copy.event.value})
      else Moved(s, m, Failing)
    case Record(m, ok) =>
      // A duplicate key counts as success: another consumer has just recorded the event.
      if ok && s.messages[m].copy.event.Some?
      then Moved(s, m, Done).(records := s.records + {s.messages[m].copy.event.value})
      else Moved(s, m, Failing)
    case Settle(m, retryPublished) =>
      var x := s.messages[m];
      var fate := FateOf(x.copy.header, false, retryPublished);
      if fate.Retry? then s.(messages := s.messages[m := x.(copy := x.copy.(header := fate.header), place := Waiting)])
      else Moved(s, m, Dead)
    case Return(m) => Moved(s, m, Queued)
  }

  // The steps of one delivery, with nobody in between.
  function Tried(s: System, m: nat, f: Findings): System
    requires IsAt(s, m, Checking)
  {
    var s1 := Next(s, Check(m, f.readable && f.storeUp));
    var s2 := if IsAt(s1, m, Sending) then Next(s1, Send(m, f.bookingFound && f.sent)) else s1;
    if IsAt(s2, m, Recording) then Next(s2, Record(m, f.insertUp)) else s2
  }

  function Handled(s: System, m: nat, f: Findings, brokerUp: bool): System
    requires IsAt(s, m, Checking)
  {
    var s' := Tried(s, m, f);
    if IsAt(s', m, Failing) then Next(s', Settle(m, brokerUp)) else s'
  }

  // The look at the records decides by itself, or the email and the record come after it.
  predicate GoesOnToSend(s: System, m: nat, f: Findings)
    requires m in s.messages
  {
    f.readable && f.storeUp && s.messages[m].copy.event.Some? && s.messages[m].copy.event.value !in s.records
  }

  lemma DecidedAsWritten(s: System, m: nat, f: Findings)
    requires IsAt(s, m, Checking) && !GoesOnToSend(s, m, f)
    ensures var ok := Notifies(s.records, s.messages[m].copy.event, f);
            Tried(s, m, f) == Moved(s, m, if ok then Done else Failing)
  {
  }

  lemma SentAsWritten(s: System, m: nat, f: Findings)
    requires IsAt(s, m, Checking) && GoesOnToSend(s, m, f)
    ensures var s' := Tried(s, m, f);
            var ok := Notifies(s.records, s.messages[m].copy.event, f);
            && s'.messages == Moved(s, m, if ok then Done else Failing).messages
            && s'.records == (if ok then s.records + {s.messages[m].copy.event.value} else s.records)
  {
    assert Next(s, Check(m, true)) == Moved(s, m, Sending);
  }

  lemma TriedAsWritten(s: System, m: nat, f: Findings)
    requires IsAt(s, m, Checking)
    ensures var event, s' := s.messages[m].copy.event, Tried(s, m, f);
            var ok := Notifies(s.records, event, f);
            && s'.messages == s.messages[m := s.messages[m].(place := if ok then Done else Failing)]
            && s'.records == (if ok then s.records + {event.value} else s.records)
  {
    if GoesOnToSend(s, m, f) {
      SentAsWritten(s, m, f);
    } else {
      DecidedAsWritten(s, m, f);
    }
  }

  // They do what the method Handle does: same fate, same records, and no other message is touched.
  lemma HandledAsWritten(s: System, m: nat, f: Findings, brokerUp: bool)
    requires IsAt(s, m, Checking)
    ensures var x, s' := s.messages[m], Handled(s, m, f, brokerUp);
            var fate := FateOf(x.copy.header, Notifies(s.records, x.copy.event, f), brokerUp);
            && s'.messages == s.messages[m :=
                 match fate
                 case Acknowledged => x.(place := Done)
                 case Retry(h) => x.(copy := x.copy.(header := h), place := Waiting)
                 case DeadLettered => x.(place := Dead)]
            && s'.records == (if fate.Acknowledged? then s.records + {x.copy.event.value} else s.records)
  {
    TriedAsWritten(s, m, f);
  }

  predicate IsFinal(x: Message) {
    x.place.Done? || x.place.Dead?
  }

  ghost predicate Increasing(s: seq<int>) {
    forall i, j :: 0 <= i < j < |s| ==> s[i] < s[j]
  }

  // A message between deliveries: it has been handled at most as often as its retry count says.
  ghost predicate RestsOk(x: Message) {
    && x.handled == |x.counts| && Increasing(x.counts)
    && (x.handled > 0 ==>
          && x.handled <= HeaderInt(x.copy.header) <= MAX_RETRY
          && x.counts[x.handled - 1] < HeaderInt(x.copy.header))
  }

  // A message in the hands of a consumer, or settled.
  ghost predicate HandledOk(x: Message) {
    && 0 < x.handled == |x.counts| <= MAX_RETRY + 1 && Increasing(x.counts)
    && (!IsFinal(x) ==>
          && x.counts[x.handled - 1] == HeaderInt(x.copy.header)
          && (x.handled > 1 ==> x.handled <= HeaderInt(x.copy.header) + 1))
  }

  ghost predicate MessageOk(x: Message, records: set<Id>, sent: multiset<Id>) {
    && (if x.place.Queued? || x.place.Waiting? then RestsOk(x) else HandledOk(x))
    && (x.place.Sending? || x.place.Recording? ==> x.copy.event.Some?)
    && (x.place.Recording? ==> x.copy.event.value in sent)
    && (x.place.Done? ==> x.copy.event.Some? && x.copy.event.value in records)
  }

  ghost predicate SystemInv(s: System) {
    && (forall m :: m in s.messages ==> MessageOk(s.messages[m], s.records, s.sent))
    && (forall e :: e in s.records ==> e in s.sent)
  }

  lemma DeliverOk(x: Message)
    requires RestsOk(x)
    ensures HandledOk(Message(x.copy, Checking, x.handled + 1, x.counts + [HeaderInt(x.copy.header)]))
  {
  }

  lemma SettleOk(x: Message, h: Header)
    requires HandledOk(x) && x.place.Failing? && FateOf(x.copy.header, false, true) == Retry(h)
    ensures RestsOk(x.(copy := x.copy.(header := h), place := Waiting))
  {
  }

  lemma SettledMessage(s: System, m: nat, retryPublished: bool)
    requires SystemInv(s) && IsAt(s, m, Failing)
    ensures var s' := Next(s, Settle(m, retryPublished)); MessageOk(s'.messages[m], s'.records, s'.sent)
  {
    assert MessageOk(s.messages[m], s.records, s.sent);
    var fate := FateOf(s.messages[m].copy.header, false, retryPublished);
    if fate.Retry? {
      SettleOk(s.messages[m], fate.header);
    }
  }

  lemma ActedMessage(s: System, a: Act)
    requires SystemInv(s) && Can(s, a)
    ensures a.m in Next(s, a).messages && MessageOk(Next(s, a).messages[a.m], Next(s, a).records, Next(s, a).sent)
  {
    match a
    case Publish(m, copy) =>
    case Deliver(m) => DeliverOk(s.messages[m]);
    case Settle(m, retryPublished) => SettledMessage(s, m, retryPublished);
    case _ => assert MessageOk(s.messages[a.m], s.records, s.sent);
  }

  lemma NextKeepsInv(s: System, a: Act)
    requires SystemInv(s) && Can(s, a)
    ensures SystemInv(Next(s, a))
  {
    ActedMessage(s, a);
    var s' := Next(s, a);
    assert s.records <= s'.records && s.sent <= s'.sent;
    if a.Record? {
      assert MessageOk(s.messages[a.m], s.records, s.sent);
    }
    forall m | m in s'.messages && m != a.m ensures MessageOk(s'.messages[m], s'.records, s'.sent) {
      assert MessageOk(s.messages[m], s.records, s.sent);
    }
  }

  datatype Run = Run(states: seq<System>, acts: seq<Act>)

  ghost predicate IsRun(r: Run) {
    && |r.states| == |r.acts| + 1
    && r.states[0] == System(map[], {}, multiset{})
    && forall i :: 0 <= i < |r.acts| ==> Can(r.states[i], r.acts[i]) && r.states[i + 1] == Next(r.states[i], r.acts[i])
  }

  lemma {:induction false} RunInv(r: Run, i: nat)
    requires IsRun(r) && i < |r.states|
    ensures SystemInv(r.states[i])
  {
    if i > 0 {
      RunInv(r, i - 1);
      NextKeepsInv(r.states[i - 1], r.acts[i - 1]);
    }
  }

  // Whatever header it came with, a message is handled at most four times, with growing retry counts.
  lemma AtMostFourTimes(r: Run, i: nat, m: nat)
    requires IsRun(r) && i < |r.states| && m in r.states[i].messages
    ensures r.states[i].messages[m].handled <= MAX_RETRY + 1
    ensures |r.states[i].messages[m].counts| == r.states[i].messages[m].handled
    ensures Increasing(r.states[i].messages[m].counts)
  {
    RunInv(r, i);
    assert MessageOk(r.states[i].messages[m], r.states[i].records, r.states[i].sent);
  }

  // An acknowledged message leaves a record of its event, and a record stands for an accepted email.
  lemma AcknowledgedIsRecorded(r: Run, i: nat, m: nat)
    requires IsRun(r) && i < |r.states| && IsAt(r.states[i], m, Done)
    ensures r.states[i].messages[m].copy.event.Some?
    ensures r.states[i].messages[m].copy.event.value in r.states[i].records
    ensures r.states[i].messages[m].copy.event.value in r.states[i].sent
  {
    RunInv(r, i);
    assert MessageOk(r.states[i].messages[m], r.states[i].records, r.states[i].sent);
  }

  predicate Concerns(a: Act, m: nat) {
    a.m == m
  }

  // No message is lost or changes its event, and its end is final.
  lemma {:induction false} MessagesStay(r: Run, i: nat, j: nat, m: nat)
    requires IsRun(r) && i <= j < |r.states| && m in r.states[i].messages
    ensures m in r.states[j].messages && r.states[j].messages[m].copy.event == r.states[i].messages[m].copy.event
    ensures IsFinal(r.states[i].messages[m]) ==> r.states[j].messages[m] == r.states[i].messages[m]
  {
    if i < j {
      MessagesStay(r, i, j - 1, m);
    }
  }

  // A message that is not settled can go on.
  lemma UnsettledCanGoOn(s: System, m: nat)
    requires m in s.messages && !IsFinal(s.messages[m])
    ensures exists a: Act :: Concerns(a, m) && Can(s, a)
  {
    var a := match s.messages[m].place
      case Queued => Deliver(m)
      case Checking => Check(m, true)
      case Sending => Send(m, true)
      case Recording => Record(m, true)
      case Failing => Settle(m, true)
      case _ => Return(m);
    assert Concerns(a, m) && Can(s, a);
  }

  // How much may still happen to a message.
  function Rank(p: Place): nat {
    match p
    case Checking => 6
    case Sending => 5
    case Recording => 4
    case Failing => 3
    case Waiting => 2
    case Queued => 1
    case _ => 0
  }

  function Ahead(x: Message): int {
    if IsFinal(x) then 0
    else 7 * (MAX_RETRY + 1 - x.handled) + Rank(x.place)
  }

  function StepsOn(r: Run, m: nat, i: nat): nat
    requires i <= |r.acts|
  {
    if i == 0 then 0 else StepsOn(r, m, i - 1) + if Concerns(r.acts[i - 1], m) then 1 else 0
  }

  lemma StepUsesUp(s: System, a: Act, m: nat)
    requires SystemInv(s) && Can(s, a) && m in s.messages
    ensures m in Next(s, a).messages
    ensures if Concerns(a, m) then 0 <= Ahead(Next(s, a).messages[m]) < Ahead(s.messages[m])
            else Next(s, a).messages[m] == s.messages[m]
  {
    NextKeepsInv(s, a);
    assert MessageOk(s.messages[m], s.records, s.sent);
    assert MessageOk(Next(s, a).messages[m], Next(s, a).records, Next(s, a).sent);
  }

  lemma NewMessageAhead(s: System, a: Act, m: nat)
    requires Can(s, a) && m !in s.messages
    ensures Concerns(a, m) <==> m in Next(s, a).messages
    ensures Concerns(a, m) ==> Ahead(Next(s, a).messages[m]) == 29
  {
  }

  // Every message is settled after at most 30 steps, its publication included, so handling ends.
  lemma {:induction false} HandlingEnds(r: Run, m: nat, i: nat)
    requires IsRun(r) && i < |r.states|
    ensures if m in r.states[i].messages
            then 0 <= Ahead(r.states[i].messages[m]) && StepsOn(r, m, i) + Ahead(r.states[i].messages[m]) <= 30
            else StepsOn(r, m, i) == 0
  {
    if i > 0 {
      HandlingEnds(r, m, i - 1);
      RunInv(r, i - 1);
      if m in r.states[i - 1].messages {
        StepUsesUp(r.states[i - 1], r.acts[i - 1], m);
      } else {
        NewMessageAhead(r.states[i - 1], r.acts[i - 1], m);
      }
    }
  }

  // A sequence of steps of one message.
  ghost predicate IsOwnPath(states: seq<System>, acts: seq<Act>, m: nat) {
    && |states| == |acts| + 1
    && forall i :: 0 <= i < |acts| ==> IsOwnStep(states[i], acts[i], states[i + 1], m)
  }

  ghost predicate IsOwnStep(s: System, a: Act, s': System, m: nat) {
    Concerns(a, m) && Can(s, a) && s' == Next(s, a)
  }

  lemma PathCons(s: System, a: Act, states: seq<System>, acts: seq<Act>, m: nat)
    requires IsOwnPath(states, acts, m) && IsOwnStep(s, a, states[0], m)
    ensures IsOwnPath([s] + states, [a] + acts, m)
  {
  }

  // Wherever a message is, steps of its own can settle it, within the bound that HandlingEnds sets.
  lemma {:induction false} CanBeSettled(s: System, m: nat) returns (states: seq<System>, acts: seq<Act>)
    requires SystemInv(s) && m in s.messages
    ensures IsOwnPath(states, acts, m) && states[0] == s && |acts| <= Ahead(s.messages[m])
    ensures var end := states[|acts|]; m in end.messages && IsFinal(end.messages[m])
    decreases Ahead(s.messages[m])
  {
    if IsFinal(s.messages[m]) {
      return [s], [];
    }
    UnsettledCanGoOn(s, m);
    var a :| Concerns(a, m) && Can(s, a);
    NextKeepsInv(s, a);
    StepUsesUp(s, a, m);
    states, acts := CanBeSettled(Next(s, a), m);
    PathCons(s, a, states, acts, m);
    states, acts := [s] + states, [a] + acts;
  }

  // ---------------------------------------------------------------- what must succeed

  // A delivery that meets no trouble is acknowledged and recorded, with one email unless the event was
  // recorded before: then with none.
  lemma GoodDeliverySucceeds(s: System, m: nat, f: Findings, brokerUp: bool)
    requires IsAt(s, m, Checking) && s.messages[m].copy.event.Some?
    requires f.readable && f.storeUp && f.bookingFound && f.sent && f.insertUp
    ensures var e, s' := s.messages[m].copy.event.value, Handled(s, m, f, brokerUp);
            && IsAt(s', m, Done) && s'.records == s.records + {e}
            && s'.sent == if e in s.records then s.sent else s.sent + multiset{e}
  {
  }

  // Whoever finds the event recorded is done, without an email.
  lemma RecordedIsAcknowledged(s: System, m: nat)
    requires IsAt(s, m, Checking) && s.messages[m].copy.event.Some? && s.messages[m].copy.event.value in s.records
    ensures Next(s, Check(m, true)) == Moved(s, m, Done)
  {
  }

  // On its way to its next look at the records, or ended.
  predicate NotSending(x: Message) {
    !x.place.Sending? && !x.place.Recording?
  }

  lemma TurnSendsNothing(r: Run, i: nat, m: nat, e: Id)
    requires IsRun(r) && i < |r.acts| && m in r.states[i].messages && e in r.states[i].records
    requires r.states[i].messages[m].copy.event == Some(e) && NotSending(r.states[i].messages[m])
    ensures e in r.states[i + 1].records && m in r.states[i + 1].messages
    ensures r.states[i + 1].messages[m].copy.event == Some(e) && NotSending(r.states[i + 1].messages[m])
    ensures r.acts[i] != Send(m, true) && r.acts[i] != Send(m, false)
  {
  }

  // Once an event is recorded, no message about it that is not just being sent is ever sent again.
  lemma {:induction false} RecordedIsNotSentAgain(r: Run, i: nat, j: nat, m: nat, e: Id)
    requires IsRun(r) && i <= j < |r.states| && m in r.states[i].messages && e in r.states[i].records
    requires r.states[i].messages[m].copy.event == Some(e) && NotSending(r.states[i].messages[m])
    ensures e in r.states[j].records && m in r.states[j].messages
    ensures r.states[j].messages[m].copy.event == Some(e) && NotSending(r.states[j].messages[m])
    ensures forall k {:trigger r.acts[k]} :: i <= k < j ==> r.acts[k] != Send(m, true) && r.acts[k] != Send(m, false)
  {
    if i < j {
      RecordedIsNotSentAgain(r, i, j - 1, m, e);
      TurnSendsNothing(r, j - 1, m, e);
    }
  }

  // ---------------------------------------------------------------- no retry is given away

  // The retry counts that a message is handled with: from its own on, up to the last retry.
  function CountsFrom(c: int): seq<int>
    decreases MAX_RETRY - c
  {
    if 0 <= c < MAX_RETRY then [c] + CountsFrom(c + 1) else [c]
  }

  // Every retry has been published.
  ghost predicate RetriesGetOut(r: Run, m: nat, n: nat)
    requires n <= |r.acts|
  {
    forall i {:trigger r.acts[i]} :: 0 <= i < n && r.acts[i].Settle? && r.acts[i].m == m ==> r.acts[i].retryPublished
  }

  // The header the message was published with.
  ghost predicate CameWith(r: Run, m: nat, n: nat, c: int)
    requires n <= |r.acts|
  {
    forall i {:trigger r.acts[i]} :: 0 <= i < n && r.acts[i].Publish? && r.acts[i].m == m ==>
      HeaderInt(r.acts[i].copy.header) == c
  }

  // The counts so far, and those that lie ahead of it while it fails.
  ghost predicate OnCourse(x: Message, c: int) {
    var h := HeaderInt(x.copy.header);
    match x.place
    case Queued => x.counts + CountsFrom(h) == CountsFrom(c)
    case Waiting => x.counts + CountsFrom(h) == CountsFrom(c)
    case Dead => x.counts == CountsFrom(c)
    case Done => x.counts <= CountsFrom(c)
    case _ =>
      && x.counts != [] && x.counts[|x.counts| - 1] == h
      && x.counts[..|x.counts| - 1] + CountsFrom(h) == CountsFrom(c)
  }

  lemma DeliveredOnCourse(x: Message, c: int)
    requires OnCourse(x, c) && x.place.Queued?
    ensures OnCourse(Message(x.copy, Checking, x.handled + 1, x.counts + [HeaderInt(x.copy.header)]), c)
  {
    var h := HeaderInt(x.copy.header);
    assert (x.counts + [h])[..|x.counts + [h]| - 1] == x.counts;
  }

  lemma SettledOnCourse(x: Message, c: int)
    requires OnCourse(x, c) && x.place.Failing?
    ensures match FateOf(x.copy.header, false, true)
            case Retry(header) => OnCourse(x.(copy := x.copy.(header := header), place := Waiting), c)
            case _ => OnCourse(x.(place := Dead), c)
  {
    var h, most := HeaderInt(x.copy.header), x.counts[..|x.counts| - 1];
    assert x.counts == most + [h];
    if 0 <= h < MAX_RETRY {
      assert most + CountsFrom(h) == x.counts + CountsFrom(h + 1);
    } else {
      assert CountsFrom(h) == [h];
    }
  }

  lemma DoneOnCourse(x: Message, c: int)
    requires OnCourse(x, c) && (x.place.Checking? || x.place.Recording?)
    ensures OnCourse(x.(place := Done), c)
  {
    var h, most := HeaderInt(x.copy.header), x.counts[..|x.counts| - 1];
    assert x.counts == most + [h] && CountsFrom(h)[0] == h;
    assert CountsFrom(c)[..|x.counts|] == x.counts;
  }

  lemma TurnOnCourse(s: System, a: Act, m: nat, c: int)
    requires Can(s, a) && m in s.messages && OnCourse(s.messages[m], c) && (a.Settle? && a.m == m ==> a.retryPublished)
    ensures m in Next(s, a).messages && OnCourse(Next(s, a).messages[m], c)
  {
    if a.m == m {
      match a
      case Deliver(_) => DeliveredOnCourse(s.messages[m], c);
      case Settle(_, _) => SettledOnCourse(s.messages[m], c);
      case Check(_, _) => DoneOnCourse(s.messages[m], c);
      case Record(_, _) => DoneOnCourse(s.messages[m], c);
      case _ =>
    }
  }

  lemma {:induction false} RunOnCourse(r: Run, n: nat, m: nat, c: int)
    requires IsRun(r) && n < |r.states| && RetriesGetOut(r, m, n) && CameWith(r, m, n, c) && m in r.states[n].messages
    ensures OnCourse(r.states[n].messages[m], c)
  {
    var s, a := r.states[n - 1], r.acts[n - 1];
    if m in s.messages {
      RunOnCourse(r, n - 1, m, c);
      TurnOnCourse(s, a, m, c);
    }
  }

  // When every retry gets out, a message is dead-lettered only after all of its attempts: with the retry
  // counts from its own on up to the last, four of them if it came with none.
  lemma DeadAfterAllRetries(r: Run, n: nat, m: nat, c: int)
    requires IsRun(r) && n < |r.states| && RetriesGetOut(r, m, n) && CameWith(r, m, n, c) && IsAt(r.states[n], m, Dead)
    ensures r.states[n].messages[m].counts == CountsFrom(c)
    ensures c == 0 ==> r.states[n].messages[m].counts == [0, 1, 2, 3]
  {
    RunOnCourse(r, n, m, c);
    assert CountsFrom(0) == [0] + ([1] + ([2] + [3]));
  }
}
