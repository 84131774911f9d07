/** The hotel list of the search page (frontend/src/app/components/hotel-search.tsx):
    `filteredHotels` keeps the hotels whose name or location includes the
    query, and `sortedHotels` sorts a copy of that list with the comparator
    the sort key selects. A hotel record is reduced to the four JSON fields
    the computation reads; `parseFloat` of a rating is a parameter. */
module HotelSearch {
  import opened Wrappers
  import opened PyStr
  import Seqs

  datatype Hotel = Hotel(name: string, location: string, price: string, rating: string)

  // ---------------------------------------------------------------- filter

  /** The filter callback: the lowercased name or the lowercased location
      includes the lowercased query. */
  predicate Matches(h: Hotel, query: string) {
    Contains(Lower(h.name), Lower(query)) || Contains(Lower(h.location), Lower(query))
  }

  /** `list.filter(p)`. */
  function Keep<T>(s: seq<T>, p: T -> bool): (r: seq<T>)
    ensures |r| <= |s|
  {
    if s == [] then [] else (if p(s[0]) then [s[0]] else []) + Keep(s[1..], p)
  }

  lemma {:induction false} KeepMembers<T>(s: seq<T>, p: T -> bool, x: T)
    ensures x in Keep(s, p) <==> x in s && p(x)
  {
    if s != [] {
      assert s == [s[0]] + s[1..];
      KeepMembers(s[1..], p, x);
    }
  }

  lemma {:induction false} KeepAppend<T>(a: seq<T>, b: seq<T>, p: T -> bool)
    ensures Keep(a + b, p) == Keep(a, p) + Keep(b, p)
  {
    if a == [] {
      assert a + b == b;
    } else {
      var head := if p(a[0]) then [a[0]] else [];
      assert (a + b)[0] == a[0];
      assert (a + b)[1..] == a[1..] + b;
      assert Keep(a + b, p) == head + Keep(a[1..] + b, p);
      KeepAppend(a[1..], b, p);
      assert Keep(a, p) == head + Keep(a[1..], p);
      Seqs.Assoc(head, Keep(a[1..], p), Keep(b, p));
    }
  }

  lemma {:induction false} KeepEvery<T>(s: seq<T>, p: T -> bool)
    requires forall i | 0 <= i < |s| :: p(s[i])
    ensures Keep(s, p) == s
  {
    if s != [] {
      assert forall i | 0 <= i < |s[1..]| :: s[1..][i] == s[i + 1];
      KeepEvery(s[1..], p);
    }
  }

  lemma {:induction false} KeepTwice<T>(s: seq<T>, p: T -> bool)
    ensures Keep(Keep(s, p), p) == Keep(s, p)
  {
    if s != [] {
      var head := if p(s[0]) then [s[0]] else [];
      KeepAppend(head, Keep(s[1..], p), p);
      KeepTwice(s[1..], p);
      if p(s[0]) {
        assert head[1..] == [];
      }
    }
  }

  function Query(query: string): Hotel -> bool {
    h => Matches(h, query)
  }

  /** `HOTELS.filter(...)`. */
  function Filtered(hotels: seq<Hotel>, query: string): seq<Hotel> {
    Keep(hotels, Query(query))
  }

  /** The filtered list holds exactly the matching hotels. */
  lemma FilteredMembers(hotels: seq<Hotel>, query: string, h: Hotel)
    ensures h in Filtered(hotels, query) <==> h in hotels && Matches(h, query)
  {
    KeepMembers(hotels, Query(query), h);
  }

  /** The filter keeps the original order: filtering a concatenation
      concatenates the filtered parts. */
  lemma FilteredAppend(a: seq<Hotel>, b: seq<Hotel>, query: string)
    ensures Filtered(a + b, query) == Filtered(a, query) + Filtered(b, query)
  {
    KeepAppend(a, b, Query(query));
  }

  /** An empty query keeps every hotel, since every string includes "". */
  lemma FilteredEmptyQuery(hotels: seq<Hotel>)
    ensures Filtered(hotels, "") == hotels
  {
    assert Lower("") == "";
    forall i | 0 <= i < |hotels| ensures Query("")(hotels[i]) {
      assert OccursAt(Lower(hotels[i].name), "", 0);
    }
    KeepEvery(hotels, Query(""));
  }

  /** Filtering twice with the same query changes nothing more. */
  lemma FilteredIdempotent(hotels: seq<Hotel>, query: string)
    ensures Filtered(Filtered(hotels, query), query) == Filtered(hotels, query)
  {
    KeepTwice(hotels, Query(query));
  }

  // --------------------------------------------------------------- sorting

  /** Where a stable sort places `x` after the sorted `s`: after the last
      element that does not compare greater than it. */
  function Insert<T>(s: seq<T>, x: T, cmp: (T, T) -> real): (r: seq<T>)
    ensures |r| == |s| + 1
  {
    if s == [] then [x]
    else if cmp(s[|s| - 1], x) <= 0.0 then s + [x]
    else Insert(s[..|s| - 1], x, cmp) + [s[|s| - 1]]
  }

  /** `[...list].sort(cmp)`: a stable sort, on a copy, that places `a` after
      `b` only when `cmp(a, b)` is positive. */
  function SortBy<T>(s: seq<T>, cmp: (T, T) -> real): (r: seq<T>)
    ensures |r| == |s|
  {
    if s == [] then [] else Insert(SortBy(s[..|s| - 1], cmp), s[|s| - 1], cmp)
  }

  lemma {:induction false} InsertPermutes<T>(s: seq<T>, x: T, cmp: (T, T) -> real)
    ensures multiset(Insert(s, x, cmp)) == multiset(s) + multiset{x}
  {
    if s != [] && cmp(s[|s| - 1], x) > 0.0 {
      var n := |s| - 1;
      assert s == s[..n] + [s[n]];
      InsertPermutes(s[..n], x, cmp);
    }
  }

  /** Whatever the comparator, the sorted copy is a permutation. */
  lemma {:induction false} SortPermutes<T>(s: seq<T>, cmp: (T, T) -> real)
    ensures multiset(SortBy(s, cmp)) == multiset(s)
  {
    if s != [] {
      var n := |s| - 1;
      assert s == s[..n] + [s[n]];
      SortPermutes(s[..n], cmp);
      InsertPermutes(SortBy(s[..n], cmp), s[n], cmp);
    }
  }

  /** A comparator that always answers 0 leaves the order as it was. */
  lemma {:induction false} SortStable<T>(s: seq<T>, cmp: (T, T) -> real)
    requires forall a: T, b: T :: cmp(a, b) == 0.0
    ensures SortBy(s, cmp) == s
  {
    if s != [] {
      var n := |s| - 1;
      SortStable(s[..n], cmp);
      assert s == s[..n] + [s[n]];
    }
  }

  /** The position Insert gives `x` in `s`. */
  function InsertAt<T>(s: seq<T>, x: T, cmp: (T, T) -> real): (p: nat)
    ensures p <= |s|
  {
    if s == [] || cmp(s[|s| - 1], x) <= 0.0 then |s| else InsertAt(s[..|s| - 1], x, cmp)
  }

  /** Insert puts `x` after a prefix of `s` and ahead of a run of elements
      that each compare greater than `x`, whatever the comparator. */
  lemma {:induction false} InsertSplits<T>(s: seq<T>, x: T, cmp: (T, T) -> real)
    ensures var p := InsertAt(s, x, cmp);
      && Insert(s, x, cmp) == s[..p] + [x] + s[p..]
      && forall j | p <= j < |s| :: cmp(s[j], x) > 0.0
  {
    if s != [] && cmp(s[|s| - 1], x) > 0.0 {
      var n := |s| - 1;
      var init := s[..n];
      var p := InsertAt(init, x, cmp);
      InsertSplits(init, x, cmp);
      assert init[..p] == s[..p] && init[p..] + [s[n]] == s[p..];
    } else if s != [] {
      assert s[..|s|] == s;
    }
  }

  lemma {:induction false} KeepNone<T>(s: seq<T>, p: T -> bool)
    requires forall i | 0 <= i < |s| :: !p(s[i])
    ensures Keep(s, p) == []
  {
    if s != [] {
      assert forall i | 0 <= i < |s[1..]| :: s[1..][i] == s[i + 1];
      KeepNone(s[1..], p);
    }
  }

  /** Inserting `x` puts it after every element tied with it, where the
      elements `tied` picks all compare 0 with one another. */
  lemma {:induction false} InsertKeepsTies<T>(s: seq<T>, x: T, cmp: (T, T) -> real, tied: T -> bool)
    requires forall a: T, b: T | tied(a) && tied(b) :: cmp(a, b) == 0.0
    ensures Keep(Insert(s, x, cmp), tied) == Keep(s, tied) + (if tied(x) then [x] else [])
  {
    var p := InsertAt(s, x, cmp);
    InsertSplits(s, x, cmp);
    if tied(x) {
      NoTiesAfter(s, p, x, cmp, tied);
    }
    SplitKeeps(s, p, x, tied);
  }

  /** No element that compares greater than a tied `x` is tied. */
  lemma {:induction false} NoTiesAfter<T>(s: seq<T>, p: nat, x: T, cmp: (T, T) -> real, tied: T -> bool)
    requires p <= |s| && tied(x) && forall j | p <= j < |s| :: cmp(s[j], x) > 0.0
    requires forall a: T, b: T | tied(a) && tied(b) :: cmp(a, b) == 0.0
    ensures Keep(s[p..], tied) == []
  {
    forall j | 0 <= j < |s[p..]| ensures !tied(s[p..][j]) {
      assert cmp(s[p + j], x) > 0.0;
    }
    KeepNone(s[p..], tied);
  }

  /** Putting `x` at position `p` of `s` adds it to the filtered `s` at the
      end when nothing after `p` passes the filter. */
  lemma {:induction false} SplitKeeps<T>(s: seq<T>, p: nat, x: T, tied: T -> bool)
    requires p <= |s| && (tied(x) ==> Keep(s[p..], tied) == [])
    ensures Keep(s[..p] + [x] + s[p..], tied) == Keep(s, tied) + (if tied(x) then [x] else [])
  {
    var pre, post := s[..p], s[p..];
    assert pre + post == s;
    KeepAround(pre, x, post, tied);
    KeepAppend(pre, post, tied);
    var kp, kq := Keep(pre, tied), Keep(post, tied);
    if tied(x) {
      assert kp + [x] + kq == (kp + kq) + [x];
    } else {
      assert kp + [] + kq == (kp + kq) + [];
    }
  }

  /** Filtering `a + [x] + b` filters each part. */
  lemma {:induction false} KeepAround<T>(a: seq<T>, x: T, b: seq<T>, p: T -> bool)
    ensures Keep(a + [x] + b, p) == Keep(a, p) + (if p(x) then [x] else []) + Keep(b, p)
  {
    var ax := a + [x];
    KeepAppend(ax, b, p);
    KeepAppend(a, [x], p);
    KeepOne(x, p);
  }

  lemma KeepOne<T>(x: T, p: T -> bool)
    ensures Keep([x], p) == if p(x) then [x] else []
  {
    assert [x][1..] == [];
  }

  /** The sort is stable for any comparator: elements that all compare 0
      with one another keep their relative order. */
  lemma {:induction false} SortKeepsTies<T>(s: seq<T>, cmp: (T, T) -> real, tied: T -> bool)
    requires forall a: T, b: T | tied(a) && tied(b) :: cmp(a, b) == 0.0
    ensures Keep(SortBy(s, cmp), tied) == Keep(s, tied)
  {
    if s != [] {
      var n := |s| - 1;
      assert s == s[..n] + [s[n]];
      SortKeepsTies(s[..n], cmp, tied);
      InsertKeepsTies(SortBy(s[..n], cmp), s[n], cmp, tied);
      KeepAppend(s[..n], [s[n]], tied);
      assert Keep([s[n]], tied) == if tied(s[n]) then [s[n]] else [] by {
        assert [s[n]][1..] == [];
      }
    }
  }

  /** Non-decreasing in `key`. */
  predicate Ordered<T>(s: seq<T>, key: T -> real) {
    forall i, j | 0 <= i < j < |s| :: key(s[i]) <= key(s[j])
  }

  lemma {:induction false} InsertOrdered<T>(s: seq<T>, x: T, cmp: (T, T) -> real, key: T -> real)
    requires Ordered(s, key)
    requires forall a | a in s :: cmp(a, x) == key(a) - key(x)
    ensures Ordered(Insert(s, x, cmp), key)
  {
    if s != [] {
      var n := |s| - 1;
      var init, last := s[..n], s[n];
      assert s == init + [last];
      OrderedInit(s, key);
      if cmp(last, x) <= 0.0 {
        assert key(last) <= key(x);
        OrderedSnoc(s, x, key);
      } else {
        assert forall a | a in init :: a in s;
        InsertOrdered(init, x, cmp, key);
        InsertAtMost(init, x, cmp, key, key(last));
        OrderedSnoc(Insert(init, x, cmp), last, key);
      }
    }
  }

  /** No element has a key above `v`. */
  predicate AtMost<T>(s: seq<T>, key: T -> real, v: real) {
    forall i | 0 <= i < |s| :: key(s[i]) <= v
  }

  lemma OrderedInit<T>(s: seq<T>, key: T -> real)
    requires s != [] && Ordered(s, key)
    ensures Ordered(s[..|s| - 1], key) && AtMost(s, key, key(s[|s| - 1]))
  {
  }

  lemma OrderedSnoc<T>(s: seq<T>, y: T, key: T -> real)
    requires Ordered(s, key) && AtMost(s, key, key(y))
    ensures Ordered(s + [y], key)
  {
  }

  lemma {:induction false} InsertAtMost<T>(s: seq<T>, x: T, cmp: (T, T) -> real, key: T -> real, v: real)
    requires AtMost(s, key, v) && key(x) <= v
    ensures AtMost(Insert(s, x, cmp), key, v)
  {
    if s != [] && cmp(s[|s| - 1], x) > 0.0 {
      var n := |s| - 1;
      assert AtMost(s[..n], key, v);
      InsertAtMost(s[..n], x, cmp, key, v);
    }
  }

  /** A comparator that is the difference of a key on the elements sorts
      them by that key. */
  lemma {:induction false} SortOrdered<T>(s: seq<T>, cmp: (T, T) -> real, key: T -> real)
    requires forall a, b | a in s && b in s :: cmp(a, b) == key(a) - key(b)
    ensures Ordered(SortBy(s, cmp), key)
  {
    if s != [] {
      var n := |s| - 1;
      assert s == s[..n] + [s[n]];
      SortOrdered(s[..n], cmp, key);
      var r := SortBy(s[..n], cmp);
      SortPermutes(s[..n], cmp);
      forall a | a in r ensures cmp(a, s[n]) == key(a) - key(s[n]) {
        assert a in multiset(r);
        assert a in s[..n];
      }
      InsertOrdered(r, s[n], cmp, key);
    }
  }

  // ------------------------------------------------------------- parseInt

  /** The ASCII part of the white space and line terminators that
      `parseInt` skips. */
  predicate JsSpace(c: char) {
    9 <= c as int <= 13 || c == ' '
  }

  function TrimStart(s: string): (r: string)
    ensures |r| <= |s| && r == s[|s| - |r|..]
    ensures r != [] ==> !JsSpace(r[0])
  {
    if s != [] && JsSpace(s[0]) then TrimStart(s[1..]) else s
  }

  /** The value of `c` as a digit in `radix` (10 or 16). */
  function RadixDigit(c: char, radix: nat): Option<nat> {
    if '0' <= c <= '9' && (c as int - '0' as int) < radix then Some(c as int - '0' as int)
    else if 'a' <= c <= 'z' && (c as int - 'a' as int) + 10 < radix then Some(c as int - 'a' as int + 10)
    else if 'A' <= c <= 'Z' && (c as int - 'A' as int) + 10 < radix then Some(c as int - 'A' as int + 10)
    else None
  }

  /** The length of the run of `radix` digits at the start of `s`. */
  function DigitRun(s: string, radix: nat): (n: nat)
    ensures n <= |s|
    ensures forall i | 0 <= i < n :: RadixDigit(s[i], radix).Some?
    ensures n < |s| ==> RadixDigit(s[n], radix).None?
  {
    if s == [] || RadixDigit(s[0], radix).None? then 0 else 1 + DigitRun(s[1..], radix)
  }

  function RunValue(s: string, radix: nat): nat
    requires forall i | 0 <= i < |s| :: RadixDigit(s[i], radix).Some?
  {
    if s == [] then 0
    else
      var v := RunValue(s[..|s| - 1], radix);
      NatProduct(v, radix);
      v * radix + RadixDigit(s[|s| - 1], radix).value
  }

  lemma NatProduct(a: nat, b: nat)
    ensures a * b >= 0
  {
  }

  /** The longest run of `radix` digits at the start of `v`, None when
      there is none. */
  function ReadRun(v: string, radix: nat): Option<nat> {
    var n := DigitRun(v, radix);
    if n == 0 then None else Some(RunValue(v[..n], radix))
  }

  /** The digits after an optional sign: a "0x" or "0X" prefix selects
      base 16. */
  function ReadUnsigned(u: string): Option<nat> {
    if |u| >= 2 && u[0] == '0' && (u[1] == 'x' || u[1] == 'X') then ReadRun(u[2..], 16)
    else ReadRun(u, 10)
  }

  /** JavaScript's `parseInt(s)` without a radix, None for NaN: leading
      white space and one sign are skipped, a "0x" or "0X" prefix selects
      base 16, and the longest run of digits that follows is read. */
  function ParseInt(s: string): Option<int> {
    var t := TrimStart(s);
    if t != [] && t[0] == '-' then
      match ReadUnsigned(t[1..])
      case None => None
      case Some(x) => Some(-(x as int))
    else if t != [] && t[0] == '+' then
      match ReadUnsigned(t[1..])
      case None => None
      case Some(x) => Some(x as int)
    else
      match ReadUnsigned(t)
      case None => None
      case Some(x) => Some(x as int)
  }

  /** A text that starts with neither white space nor a sign is read
      as it stands. */
  lemma ParseIntUnsigned(s: string)
    requires s != [] && !JsSpace(s[0]) && s[0] != '-' && s[0] != '+'
    ensures ParseInt(s) == match ReadUnsigned(s) case None => None case Some(x) => Some(x as int)
  {
    assert TrimStart(s) == s;
  }

  /** A text that starts with a decimal digit and no hex prefix is read in
      base 10 from its first character. */
  lemma ParseIntDecimal(s: string)
    requires s != [] && IsDigit(s[0])
    requires !(|s| >= 2 && s[0] == '0' && (s[1] == 'x' || s[1] == 'X'))
    ensures DigitRun(s, 10) > 0
    ensures ParseInt(s) == Some(RunValue(s[..DigitRun(s, 10)], 10))
  {
    ParseIntUnsigned(s);
    assert ReadUnsigned(s) == ReadRun(s, 10);
    assert RadixDigit(s[0], 10).Some?;
  }

  lemma {:induction false} RunValueDecimal(d: string)
    requires forall i | 0 <= i < |d| :: IsDigit(d[i])
    ensures forall i | 0 <= i < |d| :: RadixDigit(d[i], 10).Some?
    ensures RunValue(d, 10) == DigitsValue(d)
  {
    if d != [] {
      RunValueDecimal(d[..|d| - 1]);
    }
  }

  /** A decimal numeral followed by anything that is not a digit (and does
      not turn a lone "0" into a hex prefix) reads as the numeral: "1,200"
      reads as 1 and "45 per night" as 45. */
  lemma ParseIntPrefix(d: string, rest: string)
    requires IsDigits(d)
    requires rest != [] ==> !IsDigit(rest[0])
    requires !(d == "0" && rest != [] && (rest[0] == 'x' || rest[0] == 'X'))
    ensures ParseInt(d + rest) == Some(DigitsValue(d))
  {
    var s := d + rest;
    assert s[0] == d[0];
    if |s| >= 2 {
      if |d| >= 2 {
        assert s[1] == d[1];
      } else {
        assert s[1] == rest[0];
      }
    }
    ParseIntDecimal(s);
    DigitRunPrefix(d, rest);
    assert s[..|d|] == d;
    RunValueDecimal(d);
  }

  lemma {:induction false} DigitRunPrefix(d: string, rest: string)
    requires forall i | 0 <= i < |d| :: IsDigit(d[i])
    requires rest != [] ==> !IsDigit(rest[0])
    ensures DigitRun(d + rest, 10) == |d|
  {
    if d != [] {
      assert (d + rest)[1..] == d[1..] + rest;
      DigitRunPrefix(d[1..], rest);
    } else {
      assert d + rest == rest;
    }
  }

  /** A text whose first character is neither white space, a sign nor a
      digit is NaN, such as "MAD 450". */
  lemma ParseIntNaN(s: string)
    requires s != [] && !JsSpace(s[0]) && s[0] != '-' && s[0] != '+'
    requires RadixDigit(s[0], 10).None?
    ensures ParseInt(s).None?
  {
    assert TrimStart(s) == s;
  }

  /** `s.replace('$', '')`: only the first '$' goes. */
  function ReplaceFirst(s: string, c: char): (r: string)
    ensures c !in s ==> r == s
  {
    if s == [] then []
    else if s[0] == c then s[1..]
    else [s[0]] + ReplaceFirst(s[1..], c)
  }

  lemma {:induction false} ReplaceFirstSpec(s: string, c: char, i: nat)
    requires i < |s| && s[i] == c && c !in s[..i]
    ensures ReplaceFirst(s, c) == s[..i] + s[i + 1..]
  {
    if i > 0 {
      assert s[0] in s[..i];
      assert s[1..][..i - 1] == s[1..i];
      ReplaceFirstSpec(s[1..], c, i - 1);
      assert s[..i] == [s[0]] + s[1..i];
    }
  }

  // -------------------------------------------------------------- the list

  /** `parseInt(h.price.replace('$', ''))`. */
  function PriceNumber(h: Hotel): Option<int> {
    ParseInt(ReplaceFirst(h.price, '$'))
  }

  /** A difference with a NaN operand is NaN, which the sort reads as 0. */
  function Diff(x: Option<real>, y: Option<real>): real {
    if x.Some? && y.Some? then x.value - y.value else 0.0
  }

  function PriceValue(h: Hotel): Option<real> {
    match PriceNumber(h)
    case None => None
    case Some(n) => Some(n as real)
  }

  /** The comparator for `sortBy`; a key other than the three known ones
      compares every pair as 0. */
  function Comparator(sortBy: string, parseRating: string -> Option<real>): (Hotel, Hotel) -> real {
    if sortBy == "price-asc" then (a: Hotel, b: Hotel) => Diff(PriceValue(a), PriceValue(b))
    else if sortBy == "price-desc" then (a: Hotel, b: Hotel) => Diff(PriceValue(b), PriceValue(a))
    else if sortBy == "rating" then (a: Hotel, b: Hotel) => Diff(parseRating(b.rating), parseRating(a.rating))
    else (a: Hotel, b: Hotel) => 0.0
  }

  /** `sortedHotels`. */
  function SortedHotels(hotels: seq<Hotel>, query: string, sortBy: string,
                        parseRating: string -> Option<real>): seq<Hotel> {
    SortBy(Filtered(hotels, query), Comparator(sortBy, parseRating))
  }

  /** The sorted list is a permutation of the filtered one: it holds the
      matching hotels, each as often as the data does. */
  lemma SortedPermutes(hotels: seq<Hotel>, query: string, sortBy: string,
                       parseRating: string -> Option<real>, h: Hotel)
    ensures multiset(SortedHotels(hotels, query, sortBy, parseRating)) == multiset(Filtered(hotels, query))
    ensures h in SortedHotels(hotels, query, sortBy, parseRating) <==> h in hotels && Matches(h, query)
  {
    SortPermutes(Filtered(hotels, query), Comparator(sortBy, parseRating));
    FilteredMembers(hotels, query, h);
    assert h in SortedHotels(hotels, query, sortBy, parseRating) <==>
      h in multiset(SortedHotels(hotels, query, sortBy, parseRating));
  }

  /** 'recommended', or any key the code does not know, keeps the filtered
      order. */
  lemma OtherKeysKeepOrder(hotels: seq<Hotel>, query: string, sortBy: string,
                           parseRating: string -> Option<real>)
    requires sortBy != "price-asc" && sortBy != "price-desc" && sortBy != "rating"
    ensures SortedHotels(hotels, query, sortBy, parseRating) == Filtered(hotels, query)
  {
    SortStable(Filtered(hotels, query), Comparator(sortBy, parseRating));
  }

  /** Under price-asc, the hotels with the same price, or with prices that
      all fail to parse, keep the filtered order in the modelled stable
      sort. When the filtered prices mix parsing and unparsable ones the
      comparator is not consistent, and this order is one the program may
      produce rather than one it promises. */
  lemma PriceTiesKeepOrder(hotels: seq<Hotel>, query: string, parseRating: string -> Option<real>,
                           v: Option<int>)
    ensures var samePrice := (h: Hotel) => PriceNumber(h) == v;
      Keep(SortedHotels(hotels, query, "price-asc", parseRating), samePrice) ==
      Keep(Filtered(hotels, query), samePrice)
  {
    var samePrice := (h: Hotel) => PriceNumber(h) == v;
    SortKeepsTies(Filtered(hotels, query), Comparator("price-asc", parseRating), samePrice);
  }

  function Key(v: Option<real>): real {
    if v.Some? then v.value else 0.0
  }

  /** When every filtered price parses, price-asc orders by it, lowest first. */
  lemma PriceAscOrdered(hotels: seq<Hotel>, query: string, parseRating: string -> Option<real>)
    requires forall h | h in Filtered(hotels, query) :: PriceNumber(h).Some?
    ensures Ordered(SortedHotels(hotels, query, "price-asc", parseRating), (h: Hotel) => Key(PriceValue(h)))
  {
    SortOrdered(Filtered(hotels, query), Comparator("price-asc", parseRating), (h: Hotel) => Key(PriceValue(h)));
  }

  /** When every filtered price parses, price-desc orders by it, highest first. */
  lemma PriceDescOrdered(hotels: seq<Hotel>, query: string, parseRating: string -> Option<real>)
    requires forall h | h in Filtered(hotels, query) :: PriceNumber(h).Some?
    ensures Ordered(SortedHotels(hotels, query, "price-desc", parseRating), (h: Hotel) => -Key(PriceValue(h)))
  {
    SortOrdered(Filtered(hotels, query), Comparator("price-desc", parseRating), (h: Hotel) => -Key(PriceValue(h)));
  }

  /** When every filtered rating parses, rating orders by it, highest first. */
  lemma RatingOrdered(hotels: seq<Hotel>, query: string, parseRating: string -> Option<real>)
    requires forall h | h in Filtered(hotels, query) :: parseRating(h.rating).Some?
    ensures Ordered(SortedHotels(hotels, query, "rating", parseRating), (h: Hotel) => -Key(parseRating(h.rating)))
  {
    SortOrdered(Filtered(hotels, query), Comparator("rating", parseRating), (h: Hotel) => -Key(parseRating(h.rating)));
  }

  /** A "$"-prefixed decimal price reads as its digits; what follows a
      non-digit is ignored, so "$1,200" compares as 1. */
  lemma DollarPrice(h: Hotel, d: string, rest: string)
    requires h.price == "$" + d + rest && IsDigits(d)
    requires rest != [] ==> !IsDigit(rest[0])
    requires !(d == "0" && rest != [] && (rest[0] == 'x' || rest[0] == 'X'))
    ensures PriceNumber(h) == Some(DigitsValue(d))
  {
    assert h.price[0] == '$';
    assert h.price[1..] == d + rest;
    ParseIntPrefix(d, rest);
  }

  /** A price without digits after the '$' is NaN and compares as 0 with
      every hotel. */
  lemma NaNPriceComparesEqual(a: Hotel, b: Hotel, parseRating: string -> Option<real>)
    requires PriceNumber(a).None?
    ensures Comparator("price-asc", parseRating)(a, b) == 0.0
    ensures Comparator("price-asc", parseRating)(b, a) == 0.0
    ensures Comparator("price-desc", parseRating)(a, b) == 0.0
  {
  }
}
