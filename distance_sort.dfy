/** Ordering the spot list by the number at the front of each spot's
    `distance` text, as JavaScript's `parseInt` reads it, with a stable sort
    applied to a copy of the list. */
module DistanceSort {
  import opened Spots

  predicate IsDigit(c: char) {
    '0' <= c <= '9'
  }

  predicate AllDigits(d: string) {
    forall i :: 0 <= i < |d| ==> IsDigit(d[i])
  }

  function DigitValue(c: char): (v: nat)
    requires IsDigit(c)
    ensures v < 10
  {
    (c as int) - ('0' as int)
  }

  function DigitChar(v: nat): (c: char)
    requires v < 10
    ensures IsDigit(c) && DigitValue(c) == v
  {
    (('0' as int) + v) as char
  }

  /** Length of the run of decimal digits at the front of `s`: where
      `parseInt` stops reading. */
  function DigitRunLength(s: string): (n: nat)
    ensures n <= |s|
  {
    if s == [] || !IsDigit(s[0]) then 0 else 1 + DigitRunLength(s[1..])
  }

  /** The run DigitRunLength measures is made of digits and ends at a
      non-digit or at the end of the text. */
  lemma {:induction false} DigitRunIsMaximal(s: string)
    ensures AllDigits(s[..DigitRunLength(s)])
    ensures DigitRunLength(s) < |s| ==> !IsDigit(s[DigitRunLength(s)])
    decreases |s|
  {
    if s != [] && IsDigit(s[0]) {
      DigitRunIsMaximal(s[1..]);
      assert s[..DigitRunLength(s)] == [s[0]] + s[1..][..DigitRunLength(s[1..])];
    }
  }

  /** Value of a string of decimal digits, most significant digit first. */
  function DecimalValue(d: string): nat
    requires AllDigits(d)
  {
    if d == [] then 0
    else 10 * DecimalValue(d[..|d| - 1]) + DigitValue(d[|d| - 1])
  }

  /** `parseInt(s)` for text that starts with its digits: the value of the
      leading digit run, or None (JavaScript's NaN) when `s` does not start
      with a digit. */
  function ParseLeadingInt(s: string): (r: Option<nat>)
    ensures r.None? <==> (s == [] || !IsDigit(s[0]))
  {
    var n := DigitRunLength(s);
    DigitRunIsMaximal(s);
    if n == 0 then None else Some(DecimalValue(s[..n]))
  }

  /** Decimal rendering of a natural number without leading zeros: the
      reference against which ParseLeadingInt is checked. */
  function Digits(n: nat): (d: string)
    ensures |d| >= 1 && AllDigits(d)
    decreases n
  {
    if n < 10 then [DigitChar(n)] else Digits(n / 10) + [DigitChar(n % 10)]
  }

  lemma {:induction false} DecimalValueOfDigits(n: nat)
    ensures DecimalValue(Digits(n)) == n
    decreases n
  {
    var d := Digits(n);
    if n < 10 {
      assert d[..|d| - 1] == [];
    } else {
      assert d[..|d| - 1] == Digits(n / 10);
      DecimalValueOfDigits(n / 10);
    }
  }

  lemma {:induction false} DigitRunOfPrefix(d: string, rest: string)
    requires AllDigits(d)
    requires rest == [] || !IsDigit(rest[0])
    ensures DigitRunLength(d + rest) == |d|
    decreases |d|
  {
    if d != [] {
      assert (d + rest)[1..] == d[1..] + rest;
      DigitRunOfPrefix(d[1..], rest);
    } else {
      assert d + rest == rest;
    }
  }

  /** `parseInt` of a rendered number followed by a unit ("120" + "m") gives
      the number back: the distance text means what it shows. */
  lemma ParseRenderedDistance(n: nat, unit: string)
    requires unit == [] || !IsDigit(unit[0])
    ensures ParseLeadingInt(Digits(n) + unit) == Some(n)
  {
    var d := Digits(n);
    DigitRunOfPrefix(d, unit);
    assert (d + unit)[..|d|] == d;
    DecimalValueOfDigits(n);
  }

  /** The comparator is meaningful for a spot whose distance starts with a
      digit; for any other spot `parseInt` gives NaN. */
  predicate HasNumericDistance(s: ParkingSpot) {
    ParseLeadingInt(s.distance).Some?
  }

  predicate AllNumeric(spots: seq<ParkingSpot>) {
    forall i :: 0 <= i < |spots| ==> HasNumericDistance(spots[i])
  }

  /** The comparator's key, `parseInt(spot.distance)`. The 0 for a
      non-numeric distance is never used: the sort requires AllNumeric. */
  function DistanceKey(s: ParkingSpot): nat {
    match ParseLeadingInt(s.distance)
    case Some(n) => n
    case None => 0
  }

  predicate SortedBy(spots: seq<ParkingSpot>, key: ParkingSpot -> nat) {
    forall i, j :: 0 <= i < j < |spots| ==> key(spots[i]) <= key(spots[j])
  }

  /** The subsequence of spots whose key is `k`, in list order. A sort is
      stable when it keeps every such subsequence as it was. */
  function WithKey(spots: seq<ParkingSpot>, key: ParkingSpot -> nat, k: nat): seq<ParkingSpot> {
    if spots == [] then []
    else (if key(spots[0]) == k then [spots[0]] else []) + WithKey(spots[1..], key, k)
  }

  /** Places `x` before the first spot of the sorted list `t` whose key is
      not smaller. */
  function InsertBy(x: ParkingSpot, t: seq<ParkingSpot>, key: ParkingSpot -> nat): (r: seq<ParkingSpot>)
    requires SortedBy(t, key)
    ensures |r| == |t| + 1
    ensures r[0] == x || (t != [] && r[0] == t[0])
    ensures SortedBy(r, key)
  {
    if t == [] || key(x) <= key(t[0]) then
      [x] + t
    else
      assert t == [t[0]] + t[1..];
      SortedTail(t, key);
      var rest := InsertBy(x, t[1..], key);
      assert key(t[0]) <= key(rest[0]) by {
        if rest[0] != x {
          assert rest[0] == t[1];
        }
      }
      SortedCons(t[0], rest, key);
      [t[0]] + rest
  }

  /** Inserting adds exactly `x`. */
  lemma {:induction false} InsertByPermutes(x: ParkingSpot, t: seq<ParkingSpot>, key: ParkingSpot -> nat)
    requires SortedBy(t, key)
    ensures multiset(InsertBy(x, t, key)) == multiset(t) + multiset{x}
    decreases |t|
  {
    if t != [] && key(x) > key(t[0]) {
      SortedTail(t, key);
      InsertByPermutes(x, t[1..], key);
      assert t == [t[0]] + t[1..];
    }
  }

  lemma SortedTail(t: seq<ParkingSpot>, key: ParkingSpot -> nat)
    requires t != [] && SortedBy(t, key)
    ensures SortedBy(t[1..], key)
  {
    forall i, j | 0 <= i < j < |t| - 1 ensures key(t[1..][i]) <= key(t[1..][j]) {
      assert t[1..][i] == t[i + 1] && t[1..][j] == t[j + 1];
    }
  }

  /** A sorted list stays sorted behind an element no larger than its head. */
  lemma SortedCons(y: ParkingSpot, rest: seq<ParkingSpot>, key: ParkingSpot -> nat)
    requires SortedBy(rest, key)
    requires rest != [] ==> key(y) <= key(rest[0])
    ensures SortedBy([y] + rest, key)
  {
    var r := [y] + rest;
    forall i, j | 0 <= i < j < |r| ensures key(r[i]) <= key(r[j]) {
      assert r[j] == rest[j - 1];
      if i > 0 {
        assert r[i] == rest[i - 1];
      } else {
        assert key(rest[0]) <= key(rest[j - 1]);
      }
    }
  }

  /** Insertion sort by `key`, each element placed ahead of the equal keys
      that follow it in the input. */
  function SortBy(spots: seq<ParkingSpot>, key: ParkingSpot -> nat): (r: seq<ParkingSpot>)
    ensures multiset(r) == multiset(spots)
    ensures |r| == |spots|
    ensures SortedBy(r, key)
  {
    if spots == [] then []
    else
      assert spots == [spots[0]] + spots[1..];
      InsertByPermutes(spots[0], SortBy(spots[1..], key), key);
      InsertBy(spots[0], SortBy(spots[1..], key), key)
  }

  lemma WithKeyCons(y: ParkingSpot, ys: seq<ParkingSpot>, key: ParkingSpot -> nat, k: nat)
    ensures WithKey([y] + ys, key, k) == (if key(y) == k then [y] else []) + WithKey(ys, key, k)
  {
    assert ([y] + ys)[1..] == ys;
  }

  lemma {:induction false} InsertWithKey(x: ParkingSpot, t: seq<ParkingSpot>, key: ParkingSpot -> nat, k: nat)
    requires SortedBy(t, key)
    ensures WithKey(InsertBy(x, t, key), key, k)
         == (if key(x) == k then [x] else []) + WithKey(t, key, k)
    decreases |t|
  {
    if t == [] || key(x) <= key(t[0]) {
      WithKeyCons(x, t, key, k);
    } else {
      var rest := InsertBy(x, t[1..], key);
      assert InsertBy(x, t, key) == [t[0]] + rest;
      assert t == [t[0]] + t[1..];
      InsertWithKey(x, t[1..], key, k);
      WithKeyCons(t[0], rest, key, k);
      WithKeyCons(t[0], t[1..], key, k);
      if key(x) == k {
        assert key(t[0]) != k;
        assert WithKey(t, key, k) == WithKey(t[1..], key, k);
      } else {
        assert WithKey(rest, key, k) == WithKey(t[1..], key, k);
      }
    }
  }

  lemma {:induction false} SortByIsStable(spots: seq<ParkingSpot>, key: ParkingSpot -> nat, k: nat)
    ensures WithKey(SortBy(spots, key), key, k) == WithKey(spots, key, k)
    decreases |spots|
  {
    if spots != [] {
      SortByIsStable(spots[1..], key, k);
      InsertWithKey(spots[0], SortBy(spots[1..], key), key, k);
    }
  }

  lemma {:induction false} SortedInputIsFixed(spots: seq<ParkingSpot>, key: ParkingSpot -> nat)
    requires SortedBy(spots, key)
    ensures SortBy(spots, key) == spots
    decreases |spots|
  {
    if spots != [] {
      SortedInputIsFixed(spots[1..], key);
      assert spots == [spots[0]] + spots[1..];
    }
  }

  /** `sortSpotsByDistance`: a stable sort of a copy of the list, ascending
      by the number at the front of each distance. */
  function SortByDistance(spots: seq<ParkingSpot>): (r: seq<ParkingSpot>)
    requires AllNumeric(spots)
    ensures multiset(r) == multiset(spots)
    ensures forall i, j :: 0 <= i < j < |r| ==> DistanceKey(r[i]) <= DistanceKey(r[j])
  {
    SortBy(spots, DistanceKey)
  }

  /** The sort is stable: spots with equal distance keep their relative
      order, as `Array.prototype.sort` guarantees. */
  lemma SortByDistanceIsStable(spots: seq<ParkingSpot>, k: nat)
    requires AllNumeric(spots)
    ensures WithKey(SortByDistance(spots), DistanceKey, k) == WithKey(spots, DistanceKey, k)
  {
    SortByIsStable(spots, DistanceKey, k);
  }

  /** A list already in distance order comes back unchanged. */
  lemma SortedListIsUnchanged(spots: seq<ParkingSpot>)
    requires AllNumeric(spots)
    requires forall i, j :: 0 <= i < j < |spots| ==> DistanceKey(spots[i]) <= DistanceKey(spots[j])
    ensures SortByDistance(spots) == spots
  {
    assert SortedBy(spots, DistanceKey);
    SortedInputIsFixed(spots, DistanceKey);
  }

  /** The distance texts of the eight demo spots, in their listed order. */
  const DemoDistances: seq<string> :=
    ["120m", "150m", "200m", "250m", "300m", "320m", "400m", "450m"]

  /** The numbers `parseInt` reads from DemoDistances. */
  const DemoKeys: seq<nat> := [120, 150, 200, 250, 300, 320, 400, 450]

  /** `parseInt` of three digits followed by a non-digit. */
  lemma ThreeDigitDistance(s: string)
    requires |s| == 4 && IsDigit(s[0]) && IsDigit(s[1]) && IsDigit(s[2]) && !IsDigit(s[3])
    ensures ParseLeadingInt(s) == Some(100 * DigitValue(s[0]) + 10 * DigitValue(s[1]) + DigitValue(s[2]))
  {
    var d := s[..3];
    assert s == d + s[3..];
    DigitRunOfPrefix(d, s[3..]);
    assert d[..2][..1] == [s[0]] && d[..2] == [s[0], s[1]];
    assert DecimalValue([s[0]]) == DigitValue(s[0]);
    assert DecimalValue(d[..2]) == 10 * DigitValue(s[0]) + DigitValue(s[1]);
    assert DecimalValue(d) == 100 * DigitValue(s[0]) + 10 * DigitValue(s[1]) + DigitValue(s[2]);
  }

  lemma DemoDistanceKeys(i: nat)
    requires i < |DemoDistances|
    ensures ParseLeadingInt(DemoDistances[i]) == Some(DemoKeys[i])
  {
    ThreeDigitDistance(DemoDistances[i]);
  }

  lemma DemoKeysAscending()
    ensures forall i, j :: 0 <= i < j < |DemoKeys| ==> DemoKeys[i] <= DemoKeys[j]
  {
  }

  /** Whatever coordinates the demo data draws, its spots are already in
      distance order, so sorting leaves the list as written. */
  lemma DemoSpotsAlreadySorted(spots: seq<ParkingSpot>)
    requires |spots| == |DemoDistances|
    requires forall i :: 0 <= i < |spots| ==> spots[i].distance == DemoDistances[i]
    ensures AllNumeric(spots)
    ensures SortByDistance(spots) == spots
  {
    forall i | 0 <= i < |spots|
      ensures HasNumericDistance(spots[i]) && DistanceKey(spots[i]) == DemoKeys[i]
    {
      DemoDistanceKeys(i);
    }
    DemoKeysAscending();
    SortedListIsUnchanged(spots);
  }

  /** `[...spots].sort(...)`: the result is a fresh array; the input array is
      left as it was. */
  method SortSpotsByDistance(spots: array<ParkingSpot>) returns (sorted: array<ParkingSpot>)
    requires AllNumeric(spots[..])
    ensures fresh(sorted)
    ensures spots[..] == old(spots[..])
    ensures sorted[..] == SortByDistance(spots[..])
  {
    var r := SortByDistance(spots[..]);
    sorted := new ParkingSpot[|r|](i requires 0 <= i < |r| => r[i]);
  }
}
