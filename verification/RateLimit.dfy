// The hold rate limiter: a counter per user and address that Redis forgets 60 seconds after it began.
module RateLimit {

  type Time = int

  const WINDOW: Time := 60_000

  datatype Window = Window(count: nat, expires: Time)
  type Windows = map<string, Window>

  // The script: INCR, and EXPIRE when the counter has just begun.
  function Bumped(ws: Windows, key: string, now: Time): Window {
    if key in ws && now < ws[key].expires then ws[key].(count := ws[key].count + 1) else Window(1, now + WINDOW)
  }

  class Limiter {
    const limit: nat
    var windows: Windows

    constructor (limit: nat)
      ensures this.limit == limit && windows == map[]
    {
      this.limit := limit;
      windows := map[];
    }

    method Allow(key: string, now: Time) returns (allowed: bool)
      modifies this
      ensures windows == old(windows)[key := Bumped(old(windows), key, now)]
      ensures allowed <==> Bumped(old(windows), key, now).count <= limit
    {
      var n := 1;
      if key in windows && now < windows[key].expires {
        n := windows[key].count + 1;
        windows := windows[key := windows[key].(count := n)];
      } else {
        windows := windows[key := Window(n, now + WINDOW)];
      }
      allowed := !(n > limit);
    }
  }

  // ---------------------------------------------------------------- runs of requests

  datatype Request = Request(key: string, time: Time)

  ghost predicate InTimeOrder(rs: seq<Request>) {
    forall i, j :: 0 <= i < j < |rs| ==> rs[i].time <= rs[j].time
  }

  // The counters after the first n requests.
  function After(rs: seq<Request>, n: nat): Windows
    requires n <= |rs|
  {
    if n == 0 then map[]
    else After(rs, n - 1)[rs[n - 1].key := Bumped(After(rs, n - 1), rs[n - 1].key, rs[n - 1].time)]
  }

  // The window a request falls into, with the count it finds.
  function WindowOf(rs: seq<Request>, i: nat): Window
    requires i < |rs|
  {
    Bumped(After(rs, i), rs[i].key, rs[i].time)
  }

  predicate Allowed(rs: seq<Request>, limit: nat, i: nat)
    requires i < |rs|
  {
    WindowOf(rs, i).count <= limit
  }

  // How many requests of the key pass among lo .. hi - 1.
  function Passed(rs: seq<Request>, limit: nat, key: string, lo: nat, hi: nat): nat
    requires lo <= hi <= |rs|
    decreases hi
  {
    if lo == hi then 0
    else Passed(rs, limit, key, lo, hi - 1) + if rs[hi - 1].key == key && Allowed(rs, limit, hi - 1) then 1 else 0
  }

  // How many of them fall into the window that expires at e.
  function PassedIn(rs: seq<Request>, limit: nat, key: string, e: Time, lo: nat, hi: nat): nat
    requires lo <= hi <= |rs|
    decreases hi
  {
    if lo == hi then 0
    else
      PassedIn(rs, limit, key, e, lo, hi - 1)
      + if rs[hi - 1].key == key && Allowed(rs, limit, hi - 1) && WindowOf(rs, hi - 1).expires == e then 1 else 0
  }

  function Least(a: nat, b: nat): nat {
    if a < b then a else b
  }

  // So far a window that is not the current one has not begun, or is full at most.
  lemma {:induction false} CountSoFar(rs: seq<Request>, limit: nat, key: string, e: Time, hi: nat)
    requires InTimeOrder(rs) && hi <= |rs|
    ensures PassedIn(rs, limit, key, e, 0, hi) <= limit
    ensures var ws := After(rs, hi);
            if key !in ws || ws[key].expires < e then PassedIn(rs, limit, key, e, 0, hi) == 0
            else ws[key].expires == e ==> PassedIn(rs, limit, key, e, 0, hi) <= Least(limit, ws[key].count)
  {
    if hi > 0 {
      CountSoFar(rs, limit, key, e, hi - 1);
      if rs[hi - 1].key == key {
        ExpiryBounds(rs, key, hi - 1);
      }
    }
  }

  // A counter never outlives its window by now: it expires within 60 seconds of the last request.
  lemma {:induction false} ExpiryBounds(rs: seq<Request>, key: string, n: nat)
    requires InTimeOrder(rs) && n <= |rs|
    ensures key in After(rs, n) ==>
              && n > 0 && After(rs, n)[key].expires <= rs[n - 1].time + WINDOW
              && After(rs, n)[key].count >= 1
  {
    if n > 0 {
      ExpiryBounds(rs, key, n - 1);
    }
  }

  // Each fixed window lets at most `limit` requests of its key pass.
  lemma WindowLimit(rs: seq<Request>, limit: nat, key: string, e: Time)
    requires InTimeOrder(rs)
    ensures PassedIn(rs, limit, key, e, 0, |rs|) <= limit
  {
    CountSoFar(rs, limit, key, e, |rs|);
  }

  // From one request of a key on, its counter is in the same window, or in one at least 60 seconds later.
  lemma {:induction false} LaterWindow(rs: seq<Request>, key: string, i: nat, n: nat)
    requires InTimeOrder(rs) && i < n <= |rs| && rs[i].key == key
    ensures key in After(rs, n)
    ensures var e := WindowOf(rs, i).expires;
            After(rs, n)[key].expires == e || e + WINDOW <= After(rs, n)[key].expires
  {
    if n > i + 1 {
      LaterWindow(rs, key, i, n - 1);
    }
  }

  lemma WindowGap(rs: seq<Request>, key: string, i: nat, j: nat)
    requires InTimeOrder(rs) && i < j < |rs| && rs[i].key == key && rs[j].key == key
    ensures var e, f := WindowOf(rs, i).expires, WindowOf(rs, j).expires; e == f || e + WINDOW <= f
  {
    LaterWindow(rs, key, i, j + 1);
  }

  lemma WindowCoversRequest(rs: seq<Request>, i: nat)
    requires InTimeOrder(rs) && i < |rs|
    ensures rs[i].time < WindowOf(rs, i).expires <= rs[i].time + WINDOW
  {
    ExpiryBounds(rs, rs[i].key, i);
  }

  ghost predicate InWindows(rs: seq<Request>, key: string, lo: nat, hi: nat, e: Time, f: Time)
    requires hi <= |rs|
  {
    forall i :: lo <= i < hi && rs[i].key == key ==> WindowOf(rs, i).expires == e || WindowOf(rs, i).expires == f
  }

  // An interval of at most 60 seconds, from one request of a key to another, meets at most two windows.
  lemma TwoWindows(rs: seq<Request>, key: string, lo: nat, hi: nat)
    requires InTimeOrder(rs) && lo < hi <= |rs| && rs[lo].key == key && rs[hi - 1].key == key
    requires rs[hi - 1].time - rs[lo].time <= WINDOW
    ensures InWindows(rs, key, lo, hi, WindowOf(rs, lo).expires, WindowOf(rs, hi - 1).expires)
  {
    WindowCoversRequest(rs, lo);
    WindowCoversRequest(rs, hi - 1);
    forall i | lo <= i < hi && rs[i].key == key
      ensures WindowOf(rs, i).expires == WindowOf(rs, lo).expires
           || WindowOf(rs, i).expires == WindowOf(rs, hi - 1).expires
    {
      if lo < i < hi - 1 {
        WindowGap(rs, key, lo, i);
        WindowGap(rs, key, i, hi - 1);
      }
    }
  }

  lemma {:induction false} PassedSplits(rs: seq<Request>, limit: nat, key: string, lo: nat, hi: nat, e: Time, f: Time)
    requires lo <= hi <= |rs| && InWindows(rs, key, lo, hi, e, f)
    ensures Passed(rs, limit, key, lo, hi)
         <= PassedIn(rs, limit, key, e, lo, hi) + PassedIn(rs, limit, key, f, lo, hi)
    decreases hi
  {
    if lo < hi {
      PassedSplits(rs, limit, key, lo, hi - 1, e, f);
    }
  }

  lemma {:induction false} PassedInGrows(rs: seq<Request>, limit: nat, key: string, e: Time, lo: nat, hi: nat, end: nat)
    requires lo <= hi <= end <= |rs|
    ensures PassedIn(rs, limit, key, e, lo, hi) <= PassedIn(rs, limit, key, e, 0, end)
    decreases end
  {
    if hi < end {
      PassedInGrows(rs, limit, key, e, lo, hi, end - 1);
    } else if lo < hi {
      PassedInGrows(rs, limit, key, e, lo, hi - 1, end - 1);
    }
  }

  lemma {:induction false} PassedSkips(rs: seq<Request>, limit: nat, key: string, lo: nat, hi: nat)
    requires lo < hi <= |rs| && rs[lo].key != key
    ensures Passed(rs, limit, key, lo, hi) == Passed(rs, limit, key, lo + 1, hi)
    decreases hi
  {
    if lo + 1 < hi {
      PassedSkips(rs, limit, key, lo, hi - 1);
    }
  }

  // Whatever the other keys do, any interval of 60 seconds lets at most twice the limit pass.
  lemma {:induction false} SlidingLimit(rs: seq<Request>, limit: nat, key: string, lo: nat, hi: nat)
    requires InTimeOrder(rs) && lo <= hi <= |rs|
    requires lo < hi ==> rs[hi - 1].time - rs[lo].time <= WINDOW
    ensures Passed(rs, limit, key, lo, hi) <= 2 * limit
    decreases hi - lo
  {
    if lo == hi {
    } else if rs[hi - 1].key != key {
      SlidingLimit(rs, limit, key, lo, hi - 1);
    } else if rs[lo].key != key {
      PassedSkips(rs, limit, key, lo, hi);
      SlidingLimit(rs, limit, key, lo + 1, hi);
    } else {
      var e, f := WindowOf(rs, lo).expires, WindowOf(rs, hi - 1).expires;
      TwoWindows(rs, key, lo, hi);
      PassedSplits(rs, limit, key, lo, hi, e, f);
      PassedInGrows(rs, limit, key, e, lo, hi, |rs|);
      PassedInGrows(rs, limit, key, f, lo, hi, |rs|);
      WindowLimit(rs, limit, key, e);
      WindowLimit(rs, limit, key, f);
    }
  }

  // ---------------------------------------------------------------- what passes

  // How many of the first n requests of the key fall into the window that expires at e, passed or not.
  function Before(rs: seq<Request>, key: string, e: Time, n: nat): nat
    requires n <= |rs|
  {
    if n == 0 then 0
    else Before(rs, key, e, n - 1) + if rs[n - 1].key == key && WindowOf(rs, n - 1).expires == e then 1 else 0
  }

  lemma {:induction false} CountIsBefore(rs: seq<Request>, key: string, e: Time, n: nat)
    requires InTimeOrder(rs) && n <= |rs|
    ensures var ws := After(rs, n);
            if key !in ws || ws[key].expires < e then Before(rs, key, e, n) == 0
            else ws[key].expires == e ==> ws[key].count == Before(rs, key, e, n)
  {
    if n > 0 {
      CountIsBefore(rs, key, e, n - 1);
      if rs[n - 1].key == key {
        ExpiryBounds(rs, key, n - 1);
      }
    }
  }

  // A request passes if and only if fewer than `limit` requests of its key have come before it in its window.
  lemma AllowedExactly(rs: seq<Request>, limit: nat, i: nat)
    requires InTimeOrder(rs) && i < |rs|
    ensures Allowed(rs, limit, i) <==> Before(rs, rs[i].key, WindowOf(rs, i).expires, i) < limit
  {
    CountIsBefore(rs, rs[i].key, WindowOf(rs, i).expires, i);
    ExpiryBounds(rs, rs[i].key, i);
  }

  // A window lasts 60 seconds from one of its requests.
  lemma {:induction false} WindowBegan(rs: seq<Request>, key: string, n: nat) returns (k: nat)
    requires InTimeOrder(rs) && n <= |rs| && key in After(rs, n)
    ensures k < n && rs[k].key == key && After(rs, n)[key].expires == rs[k].time + WINDOW
  {
    if key in After(rs, n - 1) && After(rs, n)[key].expires == After(rs, n - 1)[key].expires {
      k := WindowBegan(rs, key, n - 1);
    } else {
      k := n - 1;
    }
  }

  // So whoever has been quiet for 60 seconds is let through again.
  lemma QuietKeyPasses(rs: seq<Request>, limit: nat, i: nat)
    requires InTimeOrder(rs) && i < |rs| && limit > 0
    requires forall k :: 0 <= k < i && rs[k].key == rs[i].key ==> rs[k].time + WINDOW <= rs[i].time
    ensures Allowed(rs, limit, i) && WindowOf(rs, i) == Window(1, rs[i].time + WINDOW)
  {
    if rs[i].key in After(rs, i) {
      var k := WindowBegan(rs, rs[i].key, i);
    }
  }

  // ---------------------------------------------------------------- the bound is met

  // `limit` requests when the counter begins, and `limit` more when it has just run out.
  function Burst(limit: nat, key: string): seq<Request> {
    seq(2 * limit, i => Request(key, if i < limit then 0 else WINDOW))
  }

  lemma {:induction false} BurstCounts(limit: nat, key: string, n: nat)
    requires 0 < n <= 2 * limit
    ensures key in After(Burst(limit, key), n)
    ensures After(Burst(limit, key), n)[key] == if n <= limit then Window(n, WINDOW) else Window(n - limit, 2 * WINDOW)
  {
    if n > 1 {
      BurstCounts(limit, key, n - 1);
    }
  }

  lemma {:induction false} BurstPasses(limit: nat, key: string, hi: nat)
    requires hi <= 2 * limit
    ensures Passed(Burst(limit, key), limit, key, 0, hi) == hi
  {
    if hi > 0 {
      BurstPasses(limit, key, hi - 1);
      BurstCounts(limit, key, hi);
    }
  }

  lemma SlidingLimitIsMet(limit: nat, key: string)
    ensures var rs := Burst(limit, key);
            && InTimeOrder(rs) && (limit > 0 ==> rs[|rs| - 1].time - rs[0].time <= WINDOW)
            && Passed(rs, limit, key, 0, |rs|) == 2 * limit
  {
    BurstPasses(limit, key, 2 * limit);
  }
}
