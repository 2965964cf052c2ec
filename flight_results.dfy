/** The results page: the working set of itineraries that the filter buttons
    and the airline selector replace, the page of it on screen, the airline
    list, and the duration and layover figures shown on each card. */
module FlightResults {
  import opened JsValues
  import opened Sequences
  import opened Itineraries
  import Pagination

  const ItemsPerPage := 5

  // ------------------------------------------------------ display arithmetic

  /** `formatDuration`: `Math.floor(minutes / 60)` hours and `minutes % 60`
      minutes. For a duration that is not negative the two recompose it. */
  function FormatDuration(minutes: int): (r: (int, int))
    ensures r.0 * 60 <= minutes < r.0 * 60 + 60
    ensures minutes >= 0 ==> r.0 >= 0 && 0 <= r.1 < 60 && r.0 * 60 + r.1 == minutes
    ensures minutes < 0 ==> -60 < r.1 <= 0 && r.1 == -((-minutes) % 60)
  {
    (minutes / 60, Remainder(minutes, 60))
  }

  const MsPerMinute := 60 * 1000
  const MsPerHour := 60 * 60 * 1000
  const MsPerDay := 24 * 60 * 60 * 1000

  /** The layover between an arrival and the next departure: hours and
      minutes of the absolute gap once whole days are taken off. The hours
      are the hour count modulo 24; the gap within its day is exactly these
      hours and minutes plus the seconds below a minute. */
  function Layover(arrival: int, nextDeparture: int): (r: (int, int))
    ensures 0 <= r.0 < 24 && 0 <= r.1 < 60
    ensures var gap := Abs(nextDeparture - arrival);
      && r.0 == (gap / MsPerHour) % 24
      && r.1 == (gap / MsPerMinute) % 60
      && gap % MsPerDay == r.0 * MsPerHour + r.1 * MsPerMinute + gap % MsPerMinute
  {
    var gap := Abs(nextDeparture - arrival);
    LayoverArithmetic(gap);
    ((gap % MsPerDay) / MsPerHour, (gap % MsPerHour) / MsPerMinute)
  }

  /** Euclidean division is determined by its quotient and remainder. */
  lemma DivModUnique(x: int, d: int, q: int, r: int)
    requires d > 0 && 0 <= r < d && x == q * d + r
    ensures x / d == q && x % d == r
  {
    var q', r' := x / d, x % d;
    assert (q - q') * d == r' - r;
    if q > q' {
      MultipleAtLeast(q - q', d);
    } else if q < q' {
      MultipleAtLeast(q' - q, d);
    }
  }

  lemma MultipleAtLeast(k: int, d: int)
    requires k >= 1 && d > 0
    ensures k * d >= d
  {
  }

  lemma LayoverArithmetic(gap: nat)
    ensures var d := gap % MsPerDay;
      && 0 <= d / MsPerHour < 24
      && 0 <= (gap % MsPerHour) / MsPerMinute < 60
      && d / MsPerHour == (gap / MsPerHour) % 24
      && (gap % MsPerHour) / MsPerMinute == (gap / MsPerMinute) % 60
      && d == (d / MsPerHour) * MsPerHour + ((gap % MsPerHour) / MsPerMinute) * MsPerMinute + gap % MsPerMinute
  {
    var days, d := gap / MsPerDay, gap % MsPerDay;
    var h, e := d / MsPerHour, d % MsPerHour;
    var m, f := e / MsPerMinute, e % MsPerMinute;
    assert d == h * MsPerHour + e;
    assert e == m * MsPerMinute + f;
    assert 0 <= h < 24 && 0 <= m < 60;
    DivModUnique(gap, MsPerHour, days * 24 + h, e);
    DivModUnique(gap / MsPerHour, 24, days, h);
    DivModUnique(gap, MsPerMinute, (days * 24 + h) * 60 + m, f);
    DivModUnique(gap / MsPerMinute, 60, days * 24 + h, m);
  }

  /** A layover of whole days more shows the same hours and minutes. */
  lemma {:induction false} LayoverDropsWholeDays(arrival: int, nextDeparture: int, days: nat)
    requires arrival <= nextDeparture
    ensures Layover(arrival, nextDeparture + days * MsPerDay) == Layover(arrival, nextDeparture)
  {
    var gap := nextDeparture - arrival;
    var longer := gap + days * MsPerDay;
    assert Abs(nextDeparture + days * MsPerDay - arrival) == longer;
    DivModUnique(longer, MsPerHour, gap / MsPerHour + days * 24, gap % MsPerHour);
    DivModUnique(longer / MsPerHour, 24, (gap / MsPerHour) / 24 + days, (gap / MsPerHour) % 24);
    DivModUnique(longer, MsPerMinute, gap / MsPerMinute + days * 1440, gap % MsPerMinute);
    DivModUnique(longer / MsPerMinute, 60, (gap / MsPerMinute) / 60 + days * 24, (gap / MsPerMinute) % 60);
  }

  /** The layovers shown under an itinerary's first leg: one between each
      segment and the next, none after the last. */
  function SegmentLayovers(it: ValidItinerary): (layovers: seq<(int, int)>)
    ensures |layovers| == Max(0, |it.legs[0].segments| - 1)
    ensures forall i :: 0 <= i < |layovers| ==>
              layovers[i] == Layover(it.legs[0].segments[i].arrival, it.legs[0].segments[i + 1].departure)
    ensures forall i :: 0 <= i < |layovers| ==> 0 <= layovers[i].0 < 24 && 0 <= layovers[i].1 < 60
  {
    var segments := it.legs[0].segments;
    seq(Max(0, |segments| - 1), i requires 0 <= i < |segments| - 1 =>
      Layover(segments[i].arrival, segments[i + 1].departure))
  }

  // -------------------------------------------------------------- the page

  /** `filteredFlights.slice((currentPage - 1) * 5, currentPage * 5)`: at
      most five itineraries, those at positions `(currentPage - 1) * 5` on,
      in their order in the working set. */
  function PageSlice<T>(flights: seq<T>, currentPage: int): (page: seq<T>)
    requires currentPage >= 1
    ensures |page| <= ItemsPerPage
    ensures |page| == Max(0, Min(ItemsPerPage, |flights| - (currentPage - 1) * ItemsPerPage))
    ensures forall k :: 0 <= k < |page| ==> page[k] == flights[(currentPage - 1) * ItemsPerPage + k]
  {
    var start := Min((currentPage - 1) * ItemsPerPage, |flights|);
    var end := Min(currentPage * ItemsPerPage, |flights|);
    flights[start..end]
  }

  /** Pages `1..count` one after the other. */
  function Pages<T>(flights: seq<T>, count: nat): (shown: seq<T>)
  {
    if count == 0 then [] else Pages(flights, count - 1) + PageSlice(flights, count)
  }

  lemma {:induction false} PagesArePrefix<T>(flights: seq<T>, count: nat)
    ensures Pages(flights, count) == flights[..Min(count * ItemsPerPage, |flights|)]
  {
    if count > 0 {
      PagesArePrefix(flights, count - 1);
      var lo := Min((count - 1) * ItemsPerPage, |flights|);
      var hi := Min(count * ItemsPerPage, |flights|);
      assert flights[..lo] + flights[lo..hi] == flights[..hi];
    }
  }

  /** The pages the pager offers, read in order, are the working set: every
      itinerary is shown on exactly one page, and in its place. */
  lemma PagesCoverWorkingSet<T>(flights: seq<T>)
    ensures Pages(flights, Pagination.PageCount(|flights|, ItemsPerPage)) == flights
  {
    var count := Pagination.PageCount(|flights|, ItemsPerPage);
    PagesArePrefix(flights, count);
    assert Min(count * ItemsPerPage, |flights|) == |flights|;
  }

  /** Itinerary `i` of the working set is item `i % 5` of page `i / 5 + 1`,
      a page the pager offers. */
  lemma ItemShownOnItsPage<T>(flights: seq<T>, i: nat)
    requires i < |flights|
    ensures 1 <= i / ItemsPerPage + 1 <= Pagination.PageCount(|flights|, ItemsPerPage)
    ensures i % ItemsPerPage < |PageSlice(flights, i / ItemsPerPage + 1)|
    ensures PageSlice(flights, i / ItemsPerPage + 1)[i % ItemsPerPage] == flights[i]
  {
    Pagination.ItemOnOfferedPage(i, |flights|, ItemsPerPage);
  }

  /** A page past the last one offered shows nothing. The filters leave
      `currentPage` alone, so this is what is shown when a filter shrinks the
      working set below the current page. */
  lemma PastLastPageIsEmpty<T>(flights: seq<T>, currentPage: int)
    requires currentPage > Pagination.PageCount(|flights|, ItemsPerPage)
    ensures PageSlice(flights, currentPage) == []
  {
    var count := Pagination.PageCount(|flights|, ItemsPerPage);
    assert |flights| <= count * ItemsPerPage;
  }

  // ---------------------------------------------------------- stop filters

  /** The Direct, 1 Stop and 2 Stops filters keep the itineraries of the
      original set whose `StopCount` is 0, 1 and 2. No itinerary is kept by
      two different stop filters. */
  lemma StopFiltersDisjoint(s: seq<ValidItinerary>, m: int, n: int)
    requires m != n
    ensures forall it :: it in FilterBy(s, StopCount, m) ==> it !in FilterBy(s, StopCount, n)
  {
  }

  /** When every itinerary has 0, 1 or 2 stops, the Direct, 1 Stop and
      2 Stops results together hold each itinerary of the set exactly as
      often as the set does. */
  lemma StopFiltersPartition(s: seq<ValidItinerary>)
    requires forall it :: it in s ==> 0 <= StopCount(it) <= 2
    ensures multiset(FilterBy(s, StopCount, 0)) + multiset(FilterBy(s, StopCount, 1))
            + multiset(FilterBy(s, StopCount, 2)) == multiset(s)
    ensures |FilterBy(s, StopCount, 0)| + |FilterBy(s, StopCount, 1)| + |FilterBy(s, StopCount, 2)| == |s|
  {
    var d, o, t := FilterBy(s, StopCount, 0), FilterBy(s, StopCount, 1), FilterBy(s, StopCount, 2);
    FilterCount(s, StopCount, 0);
    FilterCount(s, StopCount, 1);
    FilterCount(s, StopCount, 2);
    CountsAddUp(multiset(s), multiset(d), multiset(o), multiset(t));
    assert |multiset(d) + multiset(o) + multiset(t)| == |multiset(s)|;
  }

  /** Three multisets that split `m` by stop count add up to `m`. */
  lemma CountsAddUp(m: multiset<ValidItinerary>, d: multiset<ValidItinerary>,
                    o: multiset<ValidItinerary>, t: multiset<ValidItinerary>)
    requires forall it :: it in m ==> 0 <= StopCount(it) <= 2
    requires forall it :: d[it] == if StopCount(it) == 0 then m[it] else 0
    requires forall it :: o[it] == if StopCount(it) == 1 then m[it] else 0
    requires forall it :: t[it] == if StopCount(it) == 2 then m[it] else 0
    ensures d + o + t == m
  {
    forall it ensures (d + o + t)[it] == m[it] {
      if it !in m {
        assert m[it] == 0;
      }
    }
  }

  // --------------------------------------------------------- airline filter

  /** The key of the airline selector: the first marketing carrier's name. */
  function LeadName(it: ValidItinerary): (name: string)
  {
    LeadCarrier(it).name
  }

  // -------------------------------------------------------------- cheapest

  ghost predicate SortedByPrice(s: seq<ValidItinerary>)
  {
    forall i, j :: 0 <= i < j < |s| ==> s[i].price <= s[j].price
  }

  /** Inserts `x` after every element of `t` that is not dearer. */
  function InsertByPrice(t: seq<ValidItinerary>, x: ValidItinerary): (r: seq<ValidItinerary>)
    ensures multiset(r) == multiset(t) + multiset{x}
    ensures SortedByPrice(t) ==> SortedByPrice(r)
    decreases |t|
  {
    if t == [] || t[|t| - 1].price <= x.price then t + [x]
    else
      var init, y := t[..|t| - 1], t[|t| - 1];
      var r := InsertByPrice(init, x);
      assert t == init + [y];
      assert SortedByPrice(t) ==> forall z :: z in r ==> z.price <= y.price by {
        if SortedByPrice(t) {
          forall z | z in r ensures z.price <= y.price {
            assert z in multiset(r);
            if z != x {
              assert z in multiset(init);
            }
          }
        }
      }
      r + [y]
  }

  /** The Cheapest order: `Array.prototype.sort` by price, which is stable. */
  function SortByPrice(s: seq<ValidItinerary>): (r: seq<ValidItinerary>)
    ensures multiset(r) == multiset(s)
    ensures |r| == |s|
    ensures SortedByPrice(r)
    decreases |s|
  {
    if s == [] then []
    else
      var n := |s| - 1;
      assert s == s[..n] + [s[n]];
      var r := InsertByPrice(SortByPrice(s[..n]), s[n]);
      assert |r| == |multiset(r)|;
      r
  }

  function Price(it: ValidItinerary): (price: int)
  {
    it.price
  }

  lemma {:induction false} InsertKeepsTies(t: seq<ValidItinerary>, x: ValidItinerary, p: int)
    requires SortedByPrice(t)
    ensures FilterBy(InsertByPrice(t, x), Price, p)
         == FilterBy(t, Price, p) + (if x.price == p then [x] else [])
    decreases |t|
  {
    if t == [] || t[|t| - 1].price <= x.price {
      assert InsertByPrice(t, x) == t + [x];
      FilterSnoc(t, x, Price, p);
    } else {
      var init := t[..|t| - 1];
      assert SortedByPrice(init) by {
        forall i, j | 0 <= i < j < |init| ensures init[i].price <= init[j].price {
          assert init[i] == t[i] && init[j] == t[j];
        }
      }
      InsertKeepsTies(init, x, p);
      InsertBeforeDearer(t, x, p);
    }
  }

  /** The step of `InsertKeepsTies`: `x` goes before the dearer last element. */
  lemma InsertBeforeDearer(t: seq<ValidItinerary>, x: ValidItinerary, p: int)
    requires t != [] && t[|t| - 1].price > x.price
    requires FilterBy(InsertByPrice(t[..|t| - 1], x), Price, p)
          == FilterBy(t[..|t| - 1], Price, p) + (if x.price == p then [x] else [])
    ensures FilterBy(InsertByPrice(t, x), Price, p)
         == FilterBy(t, Price, p) + (if x.price == p then [x] else [])
  {
    var init, y := t[..|t| - 1], t[|t| - 1];
    var inserted := InsertByPrice(init, x);
    assert InsertByPrice(t, x) == inserted + [y];
    FilterSnoc(inserted, y, Price, p);
    var fInit := FilterBy(init, Price, p);
    if x.price == p {
      assert FilterBy(InsertByPrice(t, x), Price, p) == fInit + [x];
      assert FilterBy(t, Price, p) == fInit;
    } else {
      var tail := if y.price == p then [y] else [];
      assert FilterBy(inserted, Price, p) == fInit;
      assert FilterBy(InsertByPrice(t, x), Price, p) == fInit + tail;
      assert FilterBy(t, Price, p) == fInit + tail;
    }
  }

  /** Cheapest is stable: for every price, the itineraries at that price
      come out in the order they had in the set. */
  lemma {:induction false} CheapestKeepsTies(s: seq<ValidItinerary>, p: int)
    ensures FilterBy(SortByPrice(s), Price, p) == FilterBy(s, Price, p)
    decreases |s|
  {
    if s != [] {
      var n := |s| - 1;
      var init, x := s[..n], s[n];
      var sorted := SortByPrice(init);
      var tie := if x.price == p then [x] else [];
      calc {
        FilterBy(SortByPrice(s), Price, p);
        FilterBy(InsertByPrice(sorted, x), Price, p);
        { InsertKeepsTies(sorted, x, p); }
        FilterBy(sorted, Price, p) + tie;
        { CheapestKeepsTies(init, p); }
        FilterBy(init, Price, p) + tie;
        { FilterSnoc(init, x, Price, p); }
        FilterBy(init + [x], Price, p);
        { assert init + [x] == s; }
        FilterBy(s, Price, p);
      }
    }
  }

  // ---------------------------------------------------------- airline list

  function NamesOf(airlines: seq<Carrier>): (names: seq<string>)
    ensures |names| == |airlines|
    ensures forall i :: 0 <= i < |airlines| ==> names[i] == airlines[i].name
  {
    seq(|airlines|, i requires 0 <= i < |airlines| => airlines[i].name)
  }

  /** The airline list: one entry per distinct lead carrier name, the entry
      being the carrier of the first itinerary with that name, in the order
      the names first appear. Built as the `reduce` over the itineraries
      builds its `Map`, whose values come out in insertion order. */
  function AirlinesOf(s: seq<ValidItinerary>): (airlines: seq<Carrier>)
    ensures |airlines| <= |s|
    ensures s == [] <==> airlines == []
  {
    if s == [] then []
    else
      Extend(AirlinesOf(s[..|s| - 1]), LeadCarrier(s[|s| - 1]))
  }

  /** The position of the first itinerary whose lead carrier is called
      `name`, or `|s|` when there is none. */
  function FirstOccurrence(s: seq<ValidItinerary>, name: string): (k: nat)
    ensures k <= |s|
    ensures k < |s| ==> LeadName(s[k]) == name
    ensures forall j :: 0 <= j < k ==> LeadName(s[j]) != name
    decreases |s|
  {
    if s == [] then 0
    else
      var n := |s| - 1;
      var k := FirstOccurrence(s[..n], name);
      assert forall j :: 0 <= j < k ==> s[..n][j] == s[j];
      if k < n then k else if LeadName(s[n]) == name then n else |s|
  }

  /** Every lead carrier name is listed. */
  ghost predicate ListsEveryName(s: seq<ValidItinerary>, airlines: seq<Carrier>)
  {
    forall k :: 0 <= k < |s| ==> LeadName(s[k]) in NamesOf(airlines)
  }

  /** Each entry is the lead carrier of the first itinerary with its name. */
  ghost predicate EntriesFromFirstItinerary(s: seq<ValidItinerary>, airlines: seq<Carrier>)
  {
    forall i :: 0 <= i < |airlines| ==>
      FirstOccurrence(s, airlines[i].name) < |s|
      && airlines[i] == LeadCarrier(s[FirstOccurrence(s, airlines[i].name)])
  }

  /** Entries come in the order in which their names first appear (which
      also means that no name is listed twice). */
  ghost predicate InFirstSeenOrder(s: seq<ValidItinerary>, airlines: seq<Carrier>)
  {
    forall i, j :: 0 <= i < j < |airlines| ==>
      FirstOccurrence(s, airlines[i].name) < FirstOccurrence(s, airlines[j].name)
  }

  /** What the airline list promises. */
  ghost predicate FirstSeenAirlines(s: seq<ValidItinerary>, airlines: seq<Carrier>)
  {
    ListsEveryName(s, airlines) && EntriesFromFirstItinerary(s, airlines) && InFirstSeenOrder(s, airlines)
  }

  lemma {:induction false} AirlinesAreFirstSeen(s: seq<ValidItinerary>)
    ensures FirstSeenAirlines(s, AirlinesOf(s))
    decreases |s|
  {
    if s != [] {
      var n := |s| - 1;
      var pre := s[..n];
      var seen := AirlinesOf(pre);
      AirlinesAreFirstSeen(pre);
      FirstOccurrenceKept(s);
      ListsEveryNameStep(s, seen);
      EntriesStep(s, seen);
      OrderStep(s, seen);
    }
  }

  /** A name already present before the last itinerary keeps its first
      position; a name absent before it has that position only if the last
      itinerary carries it. */
  lemma FirstOccurrenceKept(s: seq<ValidItinerary>)
    requires s != []
    ensures forall name ::
              FirstOccurrence(s[..|s| - 1], name) < |s| - 1 ==>
              FirstOccurrence(s, name) == FirstOccurrence(s[..|s| - 1], name)
    ensures forall name ::
              FirstOccurrence(s[..|s| - 1], name) == |s| - 1 ==>
              FirstOccurrence(s, name) == if LeadName(s[|s| - 1]) == name then |s| - 1 else |s|
  {
  }

  /** The airline list after one more itinerary. */
  function Extend(seen: seq<Carrier>, c: Carrier): (extended: seq<Carrier>)
    ensures seen <= extended && |extended| <= |seen| + 1
    ensures c.name in NamesOf(extended)
  {
    if c.name in NamesOf(seen) then seen
    else
      assert NamesOf(seen + [c])[|seen|] == c.name;
      seen + [c]
  }

  lemma ListsEveryNameStep(s: seq<ValidItinerary>, seen: seq<Carrier>)
    requires s != [] && ListsEveryName(s[..|s| - 1], seen)
    ensures ListsEveryName(s, Extend(seen, LeadCarrier(s[|s| - 1])))
  {
    var n := |s| - 1;
    var c := LeadCarrier(s[n]);
    var r := Extend(seen, c);
    var names := NamesOf(r);
    forall k | 0 <= k < |s| ensures LeadName(s[k]) in names {
      if k < n {
        assert s[..n][k] == s[k];
        var i :| 0 <= i < |seen| && NamesOf(seen)[i] == LeadName(s[k]);
        assert names[i] == LeadName(s[k]);
      } else if c.name !in NamesOf(seen) {
        assert names[|seen|] == c.name;
      }
    }
  }

  lemma EntriesStep(s: seq<ValidItinerary>, seen: seq<Carrier>)
    requires s != []
    requires ListsEveryName(s[..|s| - 1], seen) && EntriesFromFirstItinerary(s[..|s| - 1], seen)
    ensures EntriesFromFirstItinerary(s, Extend(seen, LeadCarrier(s[|s| - 1])))
  {
    var n := |s| - 1;
    var pre := s[..n];
    var c := LeadCarrier(s[n]);
    FirstOccurrenceKept(s);
    forall i | 0 <= i < |seen|
      ensures FirstOccurrence(s, seen[i].name) == FirstOccurrence(pre, seen[i].name) < n
    {
    }
    forall k | 0 <= k < n ensures pre[k] == s[k] { }
    if c.name !in NamesOf(seen) {
      assert forall k :: 0 <= k < n ==> LeadName(pre[k]) != c.name;
      assert FirstOccurrence(pre, c.name) == n;
    }
  }

  lemma OrderStep(s: seq<ValidItinerary>, seen: seq<Carrier>)
    requires s != []
    requires ListsEveryName(s[..|s| - 1], seen) && EntriesFromFirstItinerary(s[..|s| - 1], seen)
    requires InFirstSeenOrder(s[..|s| - 1], seen)
    ensures InFirstSeenOrder(s, Extend(seen, LeadCarrier(s[|s| - 1])))
  {
    var n := |s| - 1;
    var pre := s[..n];
    var c := LeadCarrier(s[n]);
    FirstOccurrenceKept(s);
    forall i | 0 <= i < |seen|
      ensures FirstOccurrence(s, seen[i].name) == FirstOccurrence(pre, seen[i].name) < n
    {
    }
    if c.name !in NamesOf(seen) {
      assert forall k :: 0 <= k < n ==> LeadName(pre[k]) != c.name;
      assert FirstOccurrence(pre, c.name) == n;
      var r := seen + [c];
      forall i, j | 0 <= i < j < |r|
        ensures FirstOccurrence(s, r[i].name) < FirstOccurrence(s, r[j].name)
      {
        if j == |seen| {
          assert r[i] == seen[i];
        }
      }
    }
  }

  /** No name is listed twice. */
  lemma AirlineNamesDistinct(s: seq<ValidItinerary>)
    ensures forall i, j :: 0 <= i < j < |AirlinesOf(s)| ==> AirlinesOf(s)[i].name != AirlinesOf(s)[j].name
  {
    AirlinesAreFirstSeen(s);
  }

  /** The `reduce` of the page: a loop over the itineraries with the set of
      names already present in the `Map`. */
  method UniqueAirlines(itineraries: seq<ValidItinerary>) returns (airlines: seq<Carrier>)
    ensures airlines == AirlinesOf(itineraries)
    ensures FirstSeenAirlines(itineraries, airlines)
  {
    var seen: set<string> := {};
    airlines := [];
    var i := 0;
    while i < |itineraries|
      invariant 0 <= i <= |itineraries|
      invariant airlines == AirlinesOf(itineraries[..i])
      invariant forall name :: name in seen <==> name in NamesOf(airlines)
    {
      var c := LeadCarrier(itineraries[i]);
      assert itineraries[..i + 1][..i] == itineraries[..i];
      if c.name !in seen {
        seen := seen + {c.name};
        airlines := airlines + [c];
        assert NamesOf(airlines) == NamesOf(airlines[..|airlines| - 1]) + [c.name];
      }
      i := i + 1;
    }
    assert itineraries[..i] == itineraries;
    AirlinesAreFirstSeen(itineraries);
  }

  // ------------------------------------------------------------ the page

  /** The empty-result guard: the itinerary list when the navigation state
      carries a non-empty one, `None` when the page shows "No flights found". */
  function ListedItineraries(flightsData: Option<FlightsData>): (listed: Option<seq<ValidItinerary>>)
    ensures listed.Some? <==>
      && flightsData.Some? && flightsData.value.data.Some?
      && flightsData.value.data.value.itineraries.Some?
      && |flightsData.value.data.value.itineraries.value| > 0
    ensures listed.Some? ==> listed.value == flightsData.value.data.value.itineraries.value
  {
    match flightsData
    case None => None
    case Some(d) =>
      match d.data
      case None => None
      case Some(r) =>
        match r.itineraries
        case None => None
        case Some(its) => if |its| == 0 then None else Some(its)
  }

  /** The highlighted filter button: `'all'`, `'cheapest'`, `'direct'`,
      `'oneStop'` or `'twoStops'`. */
  datatype FilterTag = All | Cheapest | Direct | OneStop | TwoStops

  /** Every working set a handler can produce from `original` while
      `selectedAirline` holds `airline`. */
  ghost predicate IsResultView(original: seq<ValidItinerary>, w: seq<ValidItinerary>, airline: string)
  {
    || w == original
    || w == SortByPrice(original)
    || w == FilterBy(original, StopCount, 0)
    || w == FilterBy(original, StopCount, 1)
    || w == FilterBy(original, StopCount, 2)
    || (airline != "" && w == FilterBy(original, LeadName, airline))
  }

  /** Whatever the handlers did, the working set holds only itineraries of
      the original set, none more often than the original does. */
  lemma ResultViewDrawnFromOriginal(original: seq<ValidItinerary>, w: seq<ValidItinerary>, airline: string)
    requires IsResultView(original, w, airline)
    ensures multiset(w) <= multiset(original)
    ensures |w| <= |original|
  {
    if w == FilterBy(original, StopCount, 0) {
      FilterCount(original, StopCount, 0);
    } else if w == FilterBy(original, StopCount, 1) {
      FilterCount(original, StopCount, 1);
    } else if w == FilterBy(original, StopCount, 2) {
      FilterCount(original, StopCount, 2);
    } else if airline != "" && w == FilterBy(original, LeadName, airline) {
      FilterCount(original, LeadName, airline);
    }
  }

  /** The state of the results page. `original` is
      `flightsData.data.itineraries`; the other fields are the four pieces of
      `useState` that the handlers update. */
  class ResultView {
    const original: seq<ValidItinerary>
    var filteredFlights: seq<ValidItinerary>
    var currentPage: int
    var selectedAirline: string
    var activeFilter: FilterTag

    ghost predicate Valid()
      reads this
    {
      && |original| > 0
      && currentPage >= 1
      && IsResultView(original, filteredFlights, selectedAirline)
    }

    /** The page past the empty-result guard. */
    constructor (flightsData: Option<FlightsData>)
      requires ListedItineraries(flightsData).Some?
      ensures Valid()
      ensures original == ListedItineraries(flightsData).value
      ensures filteredFlights == original && currentPage == 1
      ensures selectedAirline == "" && activeFilter == All
    {
      original := ListedItineraries(flightsData).value;
      filteredFlights := ListedItineraries(flightsData).value;
      currentPage := 1;
      selectedAirline := "";
      activeFilter := All;
    }

    /** `paginatedFlights`. */
    function PaginatedFlights(): (page: seq<ValidItinerary>)
      reads this
      requires Valid()
      ensures |page| <= ItemsPerPage
      ensures forall k :: 0 <= k < |page| ==> page[k] in filteredFlights
    {
      var page := PageSlice(filteredFlights, currentPage);
      assert forall k :: 0 <= k < |page| ==> page[k] == filteredFlights[(currentPage - 1) * ItemsPerPage + k];
      page
    }

    /** The `count` the pager is given. */
    function PageCount(): (count: nat)
      reads this
      ensures count == 0 <==> |filteredFlights| == 0
      ensures count * ItemsPerPage >= |filteredFlights|
    {
      Pagination.PageCount(|filteredFlights|, ItemsPerPage)
    }

    method HandlePageChange(newPage: int)
      requires Valid() && newPage >= 1
      modifies this`currentPage
      ensures Valid()
      ensures currentPage == newPage
    {
      currentPage := newPage;
    }

    /** The pager's `handleChange` feeding `handlePageChange`. */
    method OnPagerChange<E>(event: E, value: int)
      requires Valid() && value >= 1
      modifies this`currentPage
      ensures Valid()
      ensures currentPage == value
    {
      HandlePageChange(Pagination.HandleChange(event, value));
    }

    method HandleFilterClick(filter: FilterTag)
      requires Valid()
      modifies this`activeFilter
      ensures Valid()
      ensures activeFilter == filter
    {
      activeFilter := filter;
    }

    method ResetFilters()
      requires Valid()
      modifies this
      ensures Valid()
      ensures filteredFlights == original && selectedAirline == ""
      ensures currentPage == 1 && activeFilter == All
    {
      filteredFlights := original;
      selectedAirline := "";
      currentPage := 1;
      HandleFilterClick(All);
    }

    method FilterByCheapest()
      requires Valid()
      modifies this`filteredFlights
      ensures Valid()
      ensures filteredFlights == SortByPrice(original)
    {
      filteredFlights := SortByPrice(original);
    }

    method FilterByDirect()
      requires Valid()
      modifies this`filteredFlights
      ensures Valid()
      ensures filteredFlights == FilterBy(original, StopCount, 0)
    {
      filteredFlights := FilterBy(original, StopCount, 0);
    }

    method FilterByOneStop()
      requires Valid()
      modifies this`filteredFlights
      ensures Valid()
      ensures filteredFlights == FilterBy(original, StopCount, 1)
    {
      filteredFlights := FilterBy(original, StopCount, 1);
    }

    method FilterByTwoStops()
      requires Valid()
      modifies this`filteredFlights
      ensures Valid()
      ensures filteredFlights == FilterBy(original, StopCount, 2)
    {
      filteredFlights := FilterBy(original, StopCount, 2);
    }

    /** `handleAirlineChange`: the empty choice ("All Airlines") brings back
      the whole set. */
    method HandleAirlineChange(value: string)
      requires Valid()
      modifies this`selectedAirline, this`filteredFlights
      ensures Valid()
      ensures selectedAirline == value
      ensures value == "" ==> filteredFlights == original
      ensures value != "" ==> filteredFlights == FilterBy(original, LeadName, value)
    {
      selectedAirline := value;
      if value != "" {
        filteredFlights := FilterBy(original, LeadName, value);
      } else {
        filteredFlights := original;
      }
    }

    /** The `onClick` of a filter button: All resets; the others apply their
      filter and highlight their button. Neither the page nor the airline
      choice changes, except on All. */
    method ClickFilterButton(filter: FilterTag)
      requires Valid()
      modifies this
      ensures Valid()
      ensures activeFilter == filter
      ensures filter == All ==> filteredFlights == original && selectedAirline == "" && currentPage == 1
      ensures filter != All ==> selectedAirline == old(selectedAirline) && currentPage == old(currentPage)
      ensures filter == Cheapest ==> filteredFlights == SortByPrice(original)
      ensures filter == Direct ==> filteredFlights == FilterBy(original, StopCount, 0)
      ensures filter == OneStop ==> filteredFlights == FilterBy(original, StopCount, 1)
      ensures filter == TwoStops ==> filteredFlights == FilterBy(original, StopCount, 2)
    {
      match filter
      case All => ResetFilters();
      case Cheapest => FilterByCheapest(); HandleFilterClick(Cheapest);
      case Direct => FilterByDirect(); HandleFilterClick(Direct);
      case OneStop => FilterByOneStop(); HandleFilterClick(OneStop);
      case TwoStops => FilterByTwoStops(); HandleFilterClick(TwoStops);
    }

    /** `airlines`: built from the original set, so no filter changes the
        airline selector's entries. */
    function Airlines(): (airlines: seq<Carrier>)
      ensures FirstSeenAirlines(original, airlines)
    {
      AirlinesAreFirstSeen(original);
      AirlinesOf(original)
    }

    /** The working set is always drawn from the original set. */
    lemma WorkingSetDrawnFromOriginal()
      requires Valid()
      ensures multiset(filteredFlights) <= multiset(original)
      ensures forall it :: it in filteredFlights ==> it in original
    {
      ResultViewDrawnFromOriginal(original, filteredFlights, selectedAirline);
      forall it | it in filteredFlights ensures it in original {
        assert it in multiset(filteredFlights);
      }
    }
  }
}
