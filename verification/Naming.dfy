// How ids are written, and what a request is recognised by.
module Naming {
  import opened Domain
  import opened Sorting
  import opened Protocol

  // An object id has twelve bytes.
  const ID_LIMIT: nat := 0x1_0000_0000_0000_0000_0000_0000
  const ID_DIGITS: nat := 24

  // ---------------------------------------------------------------- hexadecimal

  function Digit(n: nat): char
    requires n < 16
  {
    "0123456789abcdef"[n]
  }

  function DigitValue(c: char): Option<nat> {
    if '0' <= c <= '9' then Some(c as nat - '0' as nat)
    else if 'a' <= c <= 'f' then Some(c as nat - 'a' as nat + 10)
    else if 'A' <= c <= 'F' then Some(c as nat - 'A' as nat + 10)
    else None
  }

  lemma DigitRoundTrip(n: nat)
    requires n < 16
    ensures DigitValue(Digit(n)) == Some(n) && Digit(n) != ':'
  {
  }

  function Digits(n: nat, k: nat): (s: string)
    ensures |s| == k
  {
    if k == 0 then "" else Digits(n / 16, k - 1) + [Digit(n % 16)]
  }

  function Value(s: string): Option<nat> {
    if s == "" then Some(0)
    else
      match (Value(s[..|s| - 1]), DigitValue(s[|s| - 1]))
      case (Some(n), Some(d)) => Some(16 * n + d)
      case _ => None
  }

  function Pow16(k: nat): nat {
    if k == 0 then 1 else 16 * Pow16(k - 1)
  }

  lemma {:induction false} DigitsRoundTrip(n: nat, k: nat)
    requires n < Pow16(k)
    ensures Value(Digits(n, k)) == Some(n)
    ensures ':' !in Digits(n, k)
  {
    if k > 0 {
      DigitsRoundTrip(n / 16, k - 1);
      DigitRoundTrip(n % 16);
      assert Digits(n, k)[..k - 1] == Digits(n / 16, k - 1);
    }
  }

  lemma {:induction false} ValueBound(s: string)
    ensures Value(s).Some? ==> Value(s).value < Pow16(|s|)
  {
    if s != "" {
      ValueBound(s[..|s| - 1]);
    }
  }

  lemma IdLimit()
    ensures Pow16(ID_DIGITS) == ID_LIMIT
  {
    assert Pow16(8) == 0x1_0000_0000;
    assert Pow16(16) == 0x1_0000_0000 * Pow16(8) by {
      assert Pow16(12) == 0x1_0000 * Pow16(8);
      assert Pow16(16) == 0x1_0000 * Pow16(12);
    }
    assert Pow16(20) == 0x1_0000 * Pow16(16);
    assert Pow16(24) == 0x1_0000 * Pow16(20);
  }

  // ObjectID.Hex and ObjectIDFromHex.
  function Hex(id: Id): string {
    Digits(id, ID_DIGITS)
  }

  function FromHex(s: string): Option<Id> {
    if |s| == ID_DIGITS then Value(s) else None
  }

  predicate IsObjectId(id: Id) {
    id < ID_LIMIT
  }

  lemma HexRoundTrip(id: Id)
    requires IsObjectId(id)
    ensures FromHex(Hex(id)) == Some(id) && ':' !in Hex(id)
  {
    IdLimit();
    DigitsRoundTrip(id, ID_DIGITS);
  }

  lemma FromHexBound(s: string)
    ensures FromHex(s).Some? ==> IsObjectId(FromHex(s).value)
  {
    IdLimit();
    ValueBound(s);
  }

  // ---------------------------------------------------------------- keys and ownership

  function SeatKey(showtime: string, seat: string): string {
    "seatlock:" + showtime + ":" + seat
  }

  function Ownership(hold: string, user: string, token: string): string {
    hold + ":" + user + ":" + token
  }

  // What CreateHold reports of the key Redis refused: everything after the last colon.
  function AfterLastColon(key: string): string {
    if key == "" then ""
    else if key[|key| - 1] == ':' then ""
    else AfterLastColon(key[..|key| - 1]) + [key[|key| - 1]]
  }

  lemma {:induction false} AfterLastColonSplits(prefix: string, part: string)
    requires ':' !in part
    ensures AfterLastColon(prefix + ":" + part) == part
  {
    var key := prefix + ":" + part;
    if part != "" {
      var init := part[..|part| - 1];
      assert key[..|key| - 1] == prefix + ":" + init;
      AfterLastColonSplits(prefix, init);
      assert init + [part[|part| - 1]] == part;
    }
  }

  // The reported seat is the seat of the refused key.
  lemma ConflictNamesTheSeat(showtime: string, seat: string)
    requires ':' !in seat
    ensures AfterLastColon(SeatKey(showtime, seat)) == seat
  {
    AfterLastColonSplits("seatlock:" + showtime, seat);
  }

  function FirstColon(s: string): nat {
    if s == "" || s[0] == ':' then 0 else 1 + FirstColon(s[1..])
  }

  lemma {:induction false} FirstColonAt(a: string, b: string)
    requires ':' !in a
    ensures FirstColon(a + ":" + b) == |a|
  {
    if a != "" {
      assert (a + ":" + b)[1..] == a[1..] + ":" + b;
      FirstColonAt(a[1..], b);
    }
  }

  lemma SplitAtColon(a: string, b: string, c: string, d: string)
    requires ':' !in a && ':' !in c && a + ":" + b == c + ":" + d
    ensures a == c && b == d
  {
    FirstColonAt(a, b);
    FirstColonAt(c, d);
    assert (a + ":" + b)[..|a|] == a && (c + ":" + d)[..|a|] == c;
    assert (a + ":" + b)[|a| + 1..] == b && (c + ":" + d)[|a| + 1..] == d;
  }

  lemma OwnershipInjective(h: string, u: string, t: string, h': string, u': string, t': string)
    requires ':' !in h && ':' !in h' && ':' !in u && ':' !in u'
    requires Ownership(h, u, t) == Ownership(h', u', t')
    ensures h == h' && u == u' && t == t'
  {
    assert Ownership(h, u, t) == h + ":" + (u + ":" + t);
    assert Ownership(h', u', t') == h' + ":" + (u' + ":" + t');
    SplitAtColon(h, u + ":" + t, h', u' + ":" + t');
    SplitAtColon(u, t, u', t');
  }

  function KeyText(r: SeatRef): string {
    SeatKey(Hex(r.showtime), Hex(r.seat))
  }

  predicate IsSeatRef(r: SeatRef) {
    IsObjectId(r.showtime) && IsObjectId(r.seat)
  }

  // Distinct showtime seats have distinct keys, so the keyspace may be indexed by showtime seats.
  lemma KeyTextInjective(a: SeatRef, b: SeatRef)
    requires IsSeatRef(a) && IsSeatRef(b) && KeyText(a) == KeyText(b)
    ensures a == b
  {
    HexRoundTrip(a.showtime);
    HexRoundTrip(b.showtime);
    HexRoundTrip(a.seat);
    HexRoundTrip(b.seat);
    ConflictNamesTheSeat(Hex(a.showtime), Hex(a.seat));
    ConflictNamesTheSeat(Hex(b.showtime), Hex(b.seat));
    var p := "seatlock:";
    assert KeyText(a)[|p|..] == Hex(a.showtime) + ":" + Hex(a.seat);
    assert KeyText(b)[|p|..] == Hex(b.showtime) + ":" + Hex(b.seat);
    SplitAtColon(Hex(a.showtime), Hex(a.seat), Hex(b.showtime), Hex(b.seat));
  }

  function SeatKeys(showtime: string, seats: seq<string>): (keys: seq<string>)
    ensures |keys| == |seats|
  {
    seq(|seats|, i requires 0 <= i < |seats| => SeatKey(showtime, seats[i]))
  }

  method Keys(showtime: string, seats: seq<string>) returns (keys: seq<string>)
    ensures keys == SeatKeys(showtime, Sort(seats, StringLe))
    ensures Sorted(keys, StringLe) && multiset(keys) == multiset(SeatKeys(showtime, seats))
  {
    var ids := Sort(seats, StringLe);
    keys := [];
    for i := 0 to |ids|
      invariant keys == SeatKeys(showtime, ids)[..i]
    {
      keys := keys + [SeatKey(showtime, ids[i])];
    }
    assert keys == SeatKeys(showtime, ids);
    SortTexts(seats);
    SeatKeysSorted(showtime, ids);
    KeysOfSort(showtime, seats);
  }

  lemma {:induction false} PrefixLe(prefix: string, a: string, b: string)
    ensures StringLe(prefix + a, prefix + b) <==> StringLe(a, b)
  {
    if prefix == "" {
      assert prefix + a == a && prefix + b == b;
    } else {
      assert (prefix + a)[1..] == prefix[1..] + a && (prefix + b)[1..] == prefix[1..] + b;
      PrefixLe(prefix[1..], a, b);
    }
  }

  lemma SeatKeysSorted(showtime: string, ids: seq<string>)
    requires Sorted(ids, StringLe)
    ensures Sorted(SeatKeys(showtime, ids), StringLe)
  {
    forall i, j | 0 <= i < j < |ids| ensures StringLe(SeatKeys(showtime, ids)[i], SeatKeys(showtime, ids)[j]) {
      PrefixLe("seatlock:" + showtime + ":", ids[i], ids[j]);
    }
  }

  lemma ConsKeys(showtime: string, x: string, s: seq<string>)
    ensures SeatKeys(showtime, [x] + s) == [SeatKey(showtime, x)] + SeatKeys(showtime, s)
  {
  }

  lemma {:induction false} KeysOfInsert(showtime: string, x: string, s: seq<string>)
    ensures multiset(SeatKeys(showtime, Insert(x, s, StringLe)))
         == multiset(SeatKeys(showtime, s)) + multiset{SeatKey(showtime, x)}
  {
    if s == [] || StringLe(x, s[0]) {
      ConsKeys(showtime, x, s);
    } else {
      KeysOfInsert(showtime, x, s[1..]);
      ConsKeys(showtime, s[0], Insert(x, s[1..], StringLe));
      ConsKeys(showtime, s[0], s[1..]);
      assert s == [s[0]] + s[1..];
    }
  }

  lemma {:induction false} KeysOfSort(showtime: string, s: seq<string>)
    ensures multiset(SeatKeys(showtime, Sort(s, StringLe))) == multiset(SeatKeys(showtime, s))
  {
    if s != [] {
      KeysOfSort(showtime, s[1..]);
      KeysOfInsert(showtime, s[0], Sort(s[1..], StringLe));
      ConsKeys(showtime, s[0], s[1..]);
      assert s == [s[0]] + s[1..];
    }
  }

  // The keys of a hold, as texts in the order in which Redis gets them, are the seats of the hold in the
  // order in which they are stored: all requests lock seats in one order.
  lemma KeysOfHold(h: Hold, raw: seq<string>, texts: seq<string>)
    requires IsNormalForm(raw, h.seats, texts)
    ensures var keys := SeatKeys(Hex(h.showtime), Sort(texts, StringLe));
            |keys| == |KeysOf(h)| && forall i :: 0 <= i < |keys| ==> keys[i] == KeyText(KeysOf(h)[i])
  {
    SortTexts(texts);
    StringOrder();
    SortedUnique(Sort(texts, StringLe), texts, StringLe);
  }

  // Ownership values of distinct holds, users or tokens are distinct, whatever the token's text.
  lemma OwnerTextInjective(a: Owner, b: Owner, s: string, t: string)
    requires IsObjectId(a.hold) && IsObjectId(b.hold) && IsObjectId(a.user) && IsObjectId(b.user)
    requires Ownership(Hex(a.hold), Hex(a.user), s) == Ownership(Hex(b.hold), Hex(b.user), t)
    ensures a.hold == b.hold && a.user == b.user && s == t
  {
    HexRoundTrip(a.hold);
    HexRoundTrip(b.hold);
    HexRoundTrip(a.user);
    HexRoundTrip(b.user);
    OwnershipInjective(Hex(a.hold), Hex(a.user), s, Hex(b.hold), Hex(b.user), t);
  }

  // ---------------------------------------------------------------- requests

  // unicode.IsSpace.
  predicate IsSpace(c: char) {
    || c == ' ' || '\t' <= c <= '\r' || c == '\U{85}' || c == '\U{A0}' || c == '\U{1680}'
    || '\U{2000}' <= c <= '\U{200A}' || c == '\U{2028}' || c == '\U{2029}' || c == '\U{202F}'
    || c == '\U{205F}' || c == '\U{3000}'
  }

  function TrimLeft(s: string): string {
    if s != "" && IsSpace(s[0]) then TrimLeft(s[1..]) else s
  }

  function TrimRight(s: string): string {
    if s != "" && IsSpace(s[|s| - 1]) then TrimRight(s[..|s| - 1]) else s
  }

  function Decode(raw: string): Option<Id> {
    FromHex(TrimRight(TrimLeft(raw)))
  }

  predicate AllDecode(raw: seq<string>) {
    forall v :: v in raw ==> Decode(v).Some?
  }

  function DecodedIds(raw: seq<string>): set<Id> {
    set v | v in raw && Decode(v).Some? :: Decode(v).value
  }

  function Hexes(ids: seq<Id>): (s: seq<string>)
    ensures |s| == |ids|
  {
    seq(|ids|, i requires 0 <= i < |ids| => Hex(ids[i]))
  }

  ghost predicate Distinct<T>(s: seq<T>) {
    forall i, j :: 0 <= i < j < |s| ==> s[i] != s[j]
  }

  ghost predicate AreObjectIds(ids: seq<Id>) {
    forall k :: k in ids ==> IsObjectId(k)
  }

  // What normalizeIDs returns for a list it accepts: each id once, in the order of its text.
  ghost predicate IsNormalForm(raw: seq<string>, ids: seq<Id>, texts: seq<string>) {
    && texts == Hexes(ids) && AreObjectIds(ids) && Distinct(ids)
    && Sorted(texts, StringLe)
    && (set k | k in ids) == DecodedIds(raw)
  }

  // The texts collected from a prefix of the request, in order of appearance.
  ghost predicate Collected(raw: seq<string>, found: seq<Id>, texts: seq<string>, seen: set<string>) {
    && AllDecode(raw)
    && texts == Hexes(found) && AreObjectIds(found) && Distinct(found)
    && seen == (set t | t in texts)
    && (set k | k in found) == DecodedIds(raw)
  }

  lemma CollectNext(raw: seq<string>, found: seq<Id>, texts: seq<string>, seen: set<string>, v: string)
    requires Collected(raw, found, texts, seen) && Decode(v).Some?
    ensures var id := Decode(v).value;
            if Hex(id) in seen then Collected(raw + [v], found, texts, seen)
            else Collected(raw + [v], found + [id], texts + [Hex(id)], seen + {Hex(id)})
  {
    var id := Decode(v).value;
    DecodeBound(v);
    SeenMeansFound(found, id);
    assert DecodedIds(raw + [v]) == DecodedIds(raw) + {id};
    assert Hexes(found + [id]) == Hexes(found) + [Hex(id)];
  }

  method NormalizeIds(raw: seq<string>) returns (ok: bool, ids: seq<Id>, texts: seq<string>)
    ensures ok <==> AllDecode(raw)
    ensures ok ==> IsNormalForm(raw, ids, texts)
    ensures !ok ==> ids == [] && texts == []
  {
    var seen: set<string> := {};
    texts := [];
    ghost var found: seq<Id> := [];
    for i := 0 to |raw|
      invariant Collected(raw[..i], found, texts, seen)
    {
      var decoded := Decode(raw[i]);
      if decoded.None? {
        assert raw[i] in raw;
        return false, [], [];
      }
      CollectNext(raw[..i], found, texts, seen, raw[i]);
      assert raw[..i + 1] == raw[..i] + [raw[i]];
      var text := Hex(decoded.value);
      if text !in seen {
        seen := seen + {text};
        texts := texts + [text];
        found := found + [decoded.value];
      }
    }
    assert raw[..|raw|] == raw;
    SortTexts(texts);
    texts := Sort(texts, StringLe);
    ids := [];
    for i := 0 to |texts|
      invariant |ids| == i
      invariant forall j :: 0 <= j < i ==> FromHex(texts[j]) == Some(ids[j])
    {
      TextDecodes(found, texts, i);
      ids := ids + [FromHex(texts[i]).value];
    }
    IdsOfTexts(found, ids, texts);
    return true, ids, texts;
  }

  lemma SortTexts(texts: seq<string>)
    ensures Sorted(Sort(texts, StringLe), StringLe)
  {
    StringOrder();
    SortSorts(texts, StringLe);
  }

  lemma DecodeBound(raw: string)
    ensures Decode(raw).Some? ==> IsObjectId(Decode(raw).value)
  {
    FromHexBound(TrimRight(TrimLeft(raw)));
  }

  lemma SeenMeansFound(found: seq<Id>, id: Id)
    requires AreObjectIds(found) && IsObjectId(id)
    ensures Hex(id) in Hexes(found) <==> id in found
  {
    if Hex(id) in Hexes(found) {
      var i :| 0 <= i < |found| && Hexes(found)[i] == Hex(id);
      HexRoundTrip(id);
      HexRoundTrip(found[i]);
    }
    if id in found {
      var i :| 0 <= i < |found| && found[i] == id;
      assert Hexes(found)[i] == Hex(id);
    }
  }

  lemma SortedTextsAreHexes(found: seq<Id>, texts: seq<string>)
    requires multiset(texts) == multiset(Hexes(found))
    ensures forall t :: t in texts <==> t in Hexes(found)
  {
    assert forall t :: t in texts <==> t in multiset(texts);
    assert forall t :: t in Hexes(found) <==> t in multiset(Hexes(found));
  }

  lemma TextDecodes(found: seq<Id>, texts: seq<string>, i: nat)
    requires i < |texts| && AreObjectIds(found) && multiset(texts) == multiset(Hexes(found))
    ensures FromHex(texts[i]).Some? && FromHex(texts[i]).value in found && Hex(FromHex(texts[i]).value) == texts[i]
  {
    SortedTextsAreHexes(found, texts);
    assert texts[i] in Hexes(found);
    var j :| 0 <= j < |found| && Hexes(found)[j] == texts[i];
    HexRoundTrip(found[j]);
  }

  lemma IdsOfTexts(found: seq<Id>, ids: seq<Id>, texts: seq<string>)
    requires AreObjectIds(found) && Distinct(found) && multiset(texts) == multiset(Hexes(found))
    requires |ids| == |texts| && forall j :: 0 <= j < |ids| ==> FromHex(texts[j]) == Some(ids[j])
    ensures texts == Hexes(ids) && AreObjectIds(ids) && Distinct(ids)
    ensures (set k | k in ids) == (set k | k in found)
  {
    SortedTextsAreHexes(found, texts);
    forall j | 0 <= j < |ids| ensures ids[j] in found && Hex(ids[j]) == texts[j] {
      TextDecodes(found, texts, j);
    }
    assert texts == Hexes(ids);
    forall k | k in found ensures k in ids {
      var i :| 0 <= i < |found| && found[i] == k;
      assert Hexes(found)[i] in texts;
      var j :| 0 <= j < |texts| && texts[j] == Hex(k);
      HexRoundTrip(k);
    }
    HexesDistinct(found);
    DistinctByMultiset(Hexes(found));
    MultisetDistinct(texts);
    forall i, j | 0 <= i < j < |ids| ensures ids[i] != ids[j] {
      assert texts[i] != texts[j];
    }
  }

  lemma HexesDistinct(ids: seq<Id>)
    requires AreObjectIds(ids) && Distinct(ids)
    ensures Distinct(Hexes(ids))
  {
    forall i, j | 0 <= i < j < |ids| ensures Hexes(ids)[i] != Hexes(ids)[j] {
      HexRoundTrip(ids[i]);
      HexRoundTrip(ids[j]);
    }
  }

  lemma {:induction false} DistinctByMultiset<T>(s: seq<T>)
    requires Distinct(s)
    ensures forall x :: multiset(s)[x] == if x in s then 1 else 0
  {
    if s != [] {
      var init, last := s[..|s| - 1], s[|s| - 1];
      assert s == init + [last];
      DistinctByMultiset(init);
      assert last !in init;
    }
  }

  lemma MultisetDistinct<T>(s: seq<T>)
    requires forall x :: multiset(s)[x] <= 1
    ensures Distinct(s)
  {
    forall i, j | 0 <= i < j < |s| ensures s[i] != s[j] {
      assert s == s[..j] + s[j..];
      assert s[j..][0] == s[j] && s[j] in s[j..];
      assert multiset(s[j..])[s[j]] >= 1;
      assert multiset(s)[s[j]] == multiset(s[..j])[s[j]] + multiset(s[j..])[s[j]];
      assert s[j] !in s[..j] && s[..j][i] == s[i];
    }
  }

  // objectIDStrings.
  method ObjectIdStrings(ids: seq<Id>) returns (out: seq<string>)
    ensures multiset(out) == multiset(Hexes(ids)) && Sorted(out, StringLe)
  {
    out := [];
    for i := 0 to |ids|
      invariant out == Hexes(ids)[..i]
    {
      out := out + [Hex(ids[i])];
    }
    assert out == Hexes(ids);
    StringOrder();
    SortSorts(out, StringLe);
    out := Sort(out, StringLe);
  }

  method SameHoldRequest(h: Hold, showtime: Id, texts: seq<string>) returns (same: bool)
    ensures same <==> h.showtime == showtime && multiset(Hexes(h.seats)) == multiset(texts)
  {
    if h.showtime != showtime {
      return false;
    }
    var existing := ObjectIdStrings(h.seats);
    if |existing| != |texts| {
      assert |multiset(existing)| != |multiset(texts)|;
      return false;
    }
    SortTexts(texts);
    var requested := Sort(texts, StringLe);
    SortedTextsEqual(existing, requested);
    same := EqualTexts(existing, requested);
  }

  method EqualTexts(a: seq<string>, b: seq<string>) returns (same: bool)
    requires |a| == |b|
    ensures same <==> a == b
  {
    for i := 0 to |a|
      invariant forall j :: 0 <= j < i ==> a[j] == b[j]
    {
      if a[i] != b[i] {
        return false;
      }
    }
    return true;
  }

  lemma SortedTextsEqual(a: seq<string>, b: seq<string>)
    requires Sorted(a, StringLe) && Sorted(b, StringLe)
    ensures a == b <==> multiset(a) == multiset(b)
  {
    StringOrder();
    if multiset(a) == multiset(b) {
      SortedUnique(a, b, StringLe);
    }
  }

  lemma {:induction false} HexesMultiset(ids: seq<Id>, k: Id)
    requires AreObjectIds(ids) && IsObjectId(k)
    ensures multiset(Hexes(ids))[Hex(k)] == multiset(ids)[k]
  {
    if ids != [] {
      var init, last := ids[..|ids| - 1], ids[|ids| - 1];
      assert ids == init + [last];
      assert Hexes(ids) == Hexes(init) + [Hex(last)];
      HexesMultiset(init, k);
      HexRoundTrip(last);
      HexRoundTrip(k);
    }
  }

  // Comparing the texts is comparing the ids.
  lemma SameTextsSameIds(a: seq<Id>, b: seq<Id>)
    requires AreObjectIds(a) && AreObjectIds(b)
    ensures multiset(Hexes(a)) == multiset(Hexes(b)) <==> multiset(a) == multiset(b)
  {
    if multiset(Hexes(a)) == multiset(Hexes(b)) {
      forall k: Id ensures multiset(a)[k] == multiset(b)[k] {
        if IsObjectId(k) {
          HexesMultiset(a, k);
          HexesMultiset(b, k);
        } else {
          assert k !in a && k !in b;
        }
      }
    } else if multiset(a) == multiset(b) {
      forall t ensures multiset(Hexes(a))[t] == multiset(Hexes(b))[t] {
        TextCount(a, b, t);
      }
    }
  }

  lemma TextCount(a: seq<Id>, b: seq<Id>, t: string)
    requires AreObjectIds(a) && AreObjectIds(b) && multiset(a) == multiset(b)
    ensures multiset(Hexes(a))[t] == multiset(Hexes(b))[t]
  {
    assert forall k :: k in a <==> k in multiset(a);
    assert forall k :: k in b <==> k in multiset(b);
    if k :| k in a && Hex(k) == t {
      HexesMultiset(a, k);
      HexesMultiset(b, k);
    } else {
      assert t !in Hexes(a) && t !in Hexes(b);
    }
  }

  // A request is recognised exactly: a hold built from the list A matches the list B if and only if
  // the showtimes agree and A and B name the same set of seats, whatever their order, repeats, letter
  // case and outer spaces.
  lemma FingerprintExact(h: Hold, a: seq<string>, textsA: seq<string>,
                         b: seq<string>, idsB: seq<Id>, textsB: seq<string>, showtime: Id)
    requires IsNormalForm(a, h.seats, textsA) && IsNormalForm(b, idsB, textsB)
    ensures SameRequest(h, showtime, idsB) <==> h.showtime == showtime && DecodedIds(a) == DecodedIds(b)
    ensures SameRequest(h, showtime, idsB) <==>
              h.showtime == showtime && multiset(Hexes(h.seats)) == multiset(textsB)
  {
    SameTextsSameIds(h.seats, idsB);
    DistinctSets(h.seats, idsB);
    assert forall x :: x in h.seats <==> x in DecodedIds(a);
    assert forall x :: x in idsB <==> x in DecodedIds(b);
  }

  lemma DistinctSets<T(!new)>(a: seq<T>, b: seq<T>)
    requires Distinct(a) && Distinct(b)
    ensures multiset(a) == multiset(b) <==> forall x :: x in a <==> x in b
  {
    DistinctByMultiset(a);
    DistinctByMultiset(b);
    assert forall x :: x in a <==> x in multiset(a);
    assert forall x :: x in b <==> x in multiset(b);
  }

  // The normal form is determined by the set of ids.
  lemma NormalFormUnique(a: seq<string>, ids: seq<Id>, texts: seq<string>,
                         b: seq<string>, ids': seq<Id>, texts': seq<string>)
    requires IsNormalForm(a, ids, texts) && IsNormalForm(b, ids', texts') && DecodedIds(a) == DecodedIds(b)
    ensures ids == ids' && texts == texts'
  {
    assert forall x :: x in ids <==> x in DecodedIds(a);
    assert forall x :: x in ids' <==> x in DecodedIds(b);
    DistinctSets(ids, ids');
    SameTextsSameIds(ids, ids');
    StringOrder();
    SortedUnique(texts, texts', StringLe);
    forall i | 0 <= i < |ids| ensures ids[i] == ids'[i] {
      assert texts[i] == Hex(ids[i]) == Hex(ids'[i]);
      HexRoundTrip(ids[i]);
      HexRoundTrip(ids'[i]);
    }
  }

  // Letter case does not matter.
  function Upper(c: char): char {
    if 'a' <= c <= 'f' then ('A' as nat + (c as nat - 'a' as nat)) as char else c
  }

  function UpperAll(s: string): (u: string)
    ensures |u| == |s|
  {
    seq(|s|, i requires 0 <= i < |s| => Upper(s[i]))
  }

  lemma {:induction false} UpperSameValue(s: string)
    ensures Value(UpperAll(s)) == Value(s)
  {
    if s != "" {
      UpperSameValue(s[..|s| - 1]);
      assert UpperAll(s)[..|s| - 1] == UpperAll(s[..|s| - 1]);
    }
  }

  lemma CaseDoesNotMatter(s: string)
    ensures FromHex(UpperAll(s)) == FromHex(s)
  {
    UpperSameValue(s);
  }

  // Outer spaces do not matter either.
  lemma SpacesDoNotMatter(c: char, s: string)
    requires IsSpace(c)
    ensures Decode([c] + s) == Decode(s) && Decode(s + [c]) == Decode(s)
  {
    assert TrimLeft([c] + s) == TrimLeft(s);
    TrimLeftAppend(s, c);
    var t := TrimLeft(s);
    if t != "" {
      assert (t + [c])[..|t|] == t;
      assert TrimRight(t + [c]) == TrimRight(t);
    }
  }

  lemma {:induction false} TrimLeftAppend(s: string, c: char)
    requires IsSpace(c)
    ensures TrimLeft(s + [c]) == if TrimLeft(s) == "" then "" else TrimLeft(s) + [c]
  {
    if s == "" {
      assert s + [c] == [c];
      assert TrimLeft([c]) == TrimLeft("");
    } else if IsSpace(s[0]) {
      assert (s + [c])[1..] == s[1..] + [c];
      TrimLeftAppend(s[1..], c);
    }
  }
}
