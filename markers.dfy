/** Which apartments get a marker on the map: each apartment's latest price record must
    exist and pass the filter's price window, area and deal-type checks; the apartments
    that pass keep their input order (`apartments.map(...).filter(Boolean)`). */
module MarkerSelection {
  import opened Js
  import opened PriceHistory

  /** An apartment as the listing API returns it. `area` is compared with `!==` against
      the selected option, so its JavaScript type matters. */
  datatype Apartment = Apartment(complexNo: string, name: string, address: string, area: JsValue, latitude: real, longitude: real)

  /** The filter state; `maxPrice == None` is the initial `Infinity`. */
  datatype Filter = Filter(minPrice: int, maxPrice: Option<int>, area: string, dealType: string)

  const DefaultFilter: Filter := Filter(0, None, "all", "all")
  const Sale: string := "매매"
  const Lease: string := "전세"

  /** What a marker shows: the apartment and the price record its info window quotes. */
  datatype Marker = Marker(apartment: Apartment, latest: PriceRecord)

  /** The price histories, keyed by complex number. */
  type History = map<string, seq<PriceRecord>>

  /** `priceHistory[apt.complexNo]?.sort(...)[0]`: no record when the key is missing or
      the history is empty. */
  function LatestPrice(history: History, complexNo: string): Option<PriceRecord> {
    if complexNo !in history || history[complexNo] == [] then None
    else Some(SortByDateDesc(history[complexNo])[0])
  }

  /** The four early returns of the marker callback, for an apartment whose latest record is `p`. */
  predicate Excluded(p: PriceRecord, apt: Apartment, f: Filter) {
    || p.dealPriceMin < f.minPrice
    || (f.maxPrice.Some? && p.dealPriceMax > f.maxPrice.value)
    || (f.area != "all" && apt.area != Str(f.area))
    || (f.dealType == Sale && p.dealPriceMin == 0)
    || (f.dealType == Lease && p.leasePriceMin == 0)
  }

  /** The callback's result for one apartment: a marker, or nothing (`null`). */
  function MarkerFor(apt: Apartment, history: History, f: Filter): Option<Marker> {
    match LatestPrice(history, apt.complexNo)
    case None => None
    case Some(p) => if Excluded(p, apt, f) then None else Some(Marker(apt, p))
  }

  /** What `filter(Boolean)` keeps of one callback result. */
  function Kept(o: Option<Marker>): seq<Marker> {
    match o
    case None => []
    case Some(m) => [m]
  }

  /** `apartments.map(markerFor).filter(Boolean)` */
  function Select(apartments: seq<Apartment>, history: History, f: Filter): seq<Marker>
    decreases apartments
  {
    if apartments == [] then []
    else
      Kept(MarkerFor(apartments[0], history, f)) + Select(apartments[1..], history, f)
  }

  /** The record a marker quotes is the first record with the newest date in the
      apartment's history; an apartment with no history, or an empty one, gets none. */
  lemma LatestIsFirstNewest(history: History, complexNo: string)
    ensures LatestPrice(history, complexNo).None? <==> complexNo !in history || history[complexNo] == []
    ensures LatestPrice(history, complexNo).Some? ==>
      LatestPrice(history, complexNo).value == history[complexNo][FirstLatest(history[complexNo])]
  {
    if complexNo in history && history[complexNo] != [] {
      SortHeadIsFirstLatest(history[complexNo]);
    }
  }

  /** An apartment gets a marker exactly when it has a latest record, the record's deal
      prices lie inside the inclusive window (an unbounded maximum never excludes), the
      area is 'all' or equal to the apartment's, and the deal type's minimum is nonzero
      when '매매' or '전세' is selected. */
  lemma MarkerForIff(apt: Apartment, history: History, f: Filter)
    ensures MarkerFor(apt, history, f).Some? <==>
      && apt.complexNo in history && history[apt.complexNo] != []
      && var p := history[apt.complexNo][FirstLatest(history[apt.complexNo])];
         && f.minPrice <= p.dealPriceMin
         && (f.maxPrice.None? || p.dealPriceMax <= f.maxPrice.value)
         && (f.area == "all" || apt.area == Str(f.area))
         && (f.dealType == Sale ==> p.dealPriceMin != 0)
         && (f.dealType == Lease ==> p.leasePriceMin != 0)
    ensures MarkerFor(apt, history, f).Some? ==>
      MarkerFor(apt, history, f).value == Marker(apt, history[apt.complexNo][FirstLatest(history[apt.complexNo])])
  {
    LatestIsFirstNewest(history, apt.complexNo);
  }

  /** Selecting over two lists one after the other is selecting over their concatenation:
      the markers come in input order. */
  lemma {:induction false} SelectAppend(a: seq<Apartment>, b: seq<Apartment>, history: History, f: Filter)
    ensures Select(a + b, history, f) == Select(a, history, f) + Select(b, history, f)
    decreases a
  {
    if a != [] {
      SelectAppend(a[1..], b, history, f);
      assert (a + b)[1..] == a[1..] + b;
    } else {
      assert a + b == b;
    }
  }

  /** Each marker belongs to an apartment of the input that passes, and each apartment
      that passes has its marker; there are never more markers than apartments. */
  lemma {:induction false} SelectMembers(apartments: seq<Apartment>, history: History, f: Filter)
    ensures |Select(apartments, history, f)| <= |apartments|
    ensures forall m :: m in Select(apartments, history, f) <==>
      exists i :: 0 <= i < |apartments| && MarkerFor(apartments[i], history, f) == Some(m)
    decreases apartments
  {
    if apartments != [] {
      SelectMembers(apartments[1..], history, f);
      forall m | (exists i :: 0 <= i < |apartments| && MarkerFor(apartments[i], history, f) == Some(m))
        ensures m in Select(apartments, history, f)
      {
        var i :| 0 <= i < |apartments| && MarkerFor(apartments[i], history, f) == Some(m);
        if i > 0 {
          assert apartments[1..][i - 1] == apartments[i];
        }
      }
      forall m | m in Select(apartments, history, f)
        ensures exists i :: 0 <= i < |apartments| && MarkerFor(apartments[i], history, f) == Some(m)
      {
        if m !in Select(apartments[1..], history, f) {
          assert MarkerFor(apartments[0], history, f) == Some(m);
        } else {
          var i :| 0 <= i < |apartments[1..]| && MarkerFor(apartments[1..][i], history, f) == Some(m);
          assert apartments[i + 1] == apartments[1..][i];
        }
      }
    }
  }

  /** Under the initial filter {0, unbounded, 'all', 'all'} every apartment whose latest
      record has a non-negative minimum deal price is kept. */
  lemma DefaultFilterKeeps(apt: Apartment, history: History)
    requires LatestPrice(history, apt.complexNo).Some?
    requires LatestPrice(history, apt.complexNo).value.dealPriceMin >= 0
    ensures MarkerFor(apt, history, DefaultFilter) == Some(Marker(apt, LatestPrice(history, apt.complexNo).value))
  {
  }

  /** A maximum equal to the latest record's maximum, and a minimum equal to its minimum,
      do not exclude it: the window is inclusive. */
  lemma WindowIsInclusive(apt: Apartment, history: History, f: Filter)
    requires LatestPrice(history, apt.complexNo).Some?
    requires var p := LatestPrice(history, apt.complexNo).value;
      f.minPrice == p.dealPriceMin && f.maxPrice == Some(p.dealPriceMax)
    requires f.area == "all" && f.dealType == "all"
    ensures MarkerFor(apt, history, f).Some?
  {
  }

  /** The area check is strict equality with the option's string value: an apartment
      whose area is a number is never kept once an area is selected, whatever the number. */
  lemma NumericAreaNeverMatches(apt: Apartment, history: History, f: Filter)
    requires apt.area.Num? && f.area != "all"
    ensures MarkerFor(apt, history, f) == None
  {
  }
}
