/** The map component: it creates the map once the map script has loaded, keeps the
    filter the four inputs edit, and, whenever the map exists, loads the apartments and
    their price histories, sorts each shown apartment's history newest first (in place,
    in the very object it keeps as `priceData`) and replaces its markers. */
module MapView {
  import opened Js
  import opened PriceHistory
  import opened MarkerSelection

  /** The options the map is created with. */
  datatype MapOptions = MapOptions(latitude: real, longitude: real, zoom: int, minZoom: int)

  const InitialOptions: MapOptions := MapOptions(37.5666805, 126.9784147, 10, 6)

  /** What `fetchData` obtained: both JSON payloads, or a failure of either request or
      either body, which the component turns into no apartments and no histories. */
  datatype Fetched = Loaded(apartments: seq<Apartment>, history: History) | FetchFailed

  /** The apartments and histories an effect run works on. */
  function Payload(d: Fetched): (seq<Apartment>, History) {
    match d
    case FetchFailed => ([], map[])
    case Loaded(apartments, history) => (apartments, history)
  }

  /** A failed fetch leaves no price data and no markers, whatever the filter. */
  lemma FailedFetchShowsNothing(f: Filter)
    ensures SortVisited(Payload(FetchFailed).1, Payload(FetchFailed).0) == map[]
    ensures Select(Payload(FetchFailed).0, Payload(FetchFailed).1, f) == []
  {
  }

  /** The complex numbers of the given apartments. */
  function ComplexNos(apartments: seq<Apartment>): (keys: set<string>)
    ensures forall i :: 0 <= i < |apartments| ==> apartments[i].complexNo in keys
    ensures forall k :: k in keys ==> exists i :: 0 <= i < |apartments| && apartments[i].complexNo == k
  {
    set i | 0 <= i < |apartments| :: apartments[i].complexNo
  }

  /** The price histories after the marker pass over `apartments`: the history of every
      complex the pass looked up is sorted newest first, every other one is as it came. */
  function SortVisited(history: History, apartments: seq<Apartment>): (h: History)
    ensures h.Keys == history.Keys
  {
    map k | k in history :: if k in ComplexNos(apartments) then SortByDateDesc(history[k]) else history[k]
  }

  /** After the pass, each history it looked up is newest first and holds the same
      records as before; every other history is untouched. */
  lemma SortVisitedSorts(history: History, apartments: seq<Apartment>, k: string)
    requires k in history
    ensures var h := SortVisited(history, apartments);
      && multiset(h[k]) == multiset(history[k])
      && (k in ComplexNos(apartments) ==> Descending(h[k]))
      && (k !in ComplexNos(apartments) ==> h[k] == history[k])
  {
    SortIsDescending(history[k]);
  }

  lemma ComplexNosAppend(apartments: seq<Apartment>, apt: Apartment)
    ensures ComplexNos(apartments + [apt]) == ComplexNos(apartments) + {apt.complexNo}
  {
    var all := apartments + [apt];
    assert all[|apartments|] == apt;
    forall i | 0 <= i < |apartments|
      ensures all[i] == apartments[i]
    {
    }
  }

  /** One more apartment in the pass: its history, if there is one, gets sorted. */
  lemma SortVisitedStep(history: History, apartments: seq<Apartment>, apt: Apartment)
    ensures apt.complexNo in history ==>
      SortVisited(history, apartments + [apt])
        == SortVisited(history, apartments)[apt.complexNo := SortByDateDesc(history[apt.complexNo])]
    ensures apt.complexNo !in history ==>
      SortVisited(history, apartments + [apt]) == SortVisited(history, apartments)
  {
    var visited, now := ComplexNos(apartments), ComplexNos(apartments + [apt]);
    ComplexNosAppend(apartments, apt);
    var before := SortVisited(history, apartments);
    var after := SortVisited(history, apartments + [apt]);
    var k := apt.complexNo;
    var expected := if k in history then before[k := SortByDateDesc(history[k])] else before;
    assert after.Keys == expected.Keys;
    forall key | key in after
      ensures after[key] == expected[key]
    {
      if key == k {
        assert key in now;
      } else {
        assert key in now <==> key in visited;
        assert expected[key] == before[key];
      }
    }
  }

  /** Before the pass has looked anything up, the histories are as they came. */
  lemma SortVisitedNothing(history: History)
    ensures SortVisited(history, []) == history
  {
    var h := SortVisited(history, []);
    assert h.Keys == history.Keys;
    forall k | k in h
      ensures h[k] == history[k]
    {
    }
  }

  /** Sorting a history the pass may already have sorted gives the sorted history. */
  lemma ResortVisited(history: History, apartments: seq<Apartment>, k: string)
    requires k in SortVisited(history, apartments)
    ensures k in history
    ensures SortByDateDesc(SortVisited(history, apartments)[k]) == SortByDateDesc(history[k])
  {
    SortIdempotent(history[k]);
  }

  /** The markers of one more apartment come after those of the earlier ones. */
  lemma SelectStep(apartments: seq<Apartment>, apt: Apartment, history: History, f: Filter)
    ensures Select(apartments + [apt], history, f) == Select(apartments, history, f) + Kept(MarkerFor(apt, history, f))
  {
    SelectAppend(apartments, [apt], history, f);
    assert [apt][1..] == [];
  }

  /** A marker pass sorts each history it looks up once, however often its complex is
      listed: sorting a sorted history again changes nothing. */
  lemma SortVisitedTwice(history: History, apartments: seq<Apartment>)
    ensures SortVisited(history, apartments + apartments) == SortVisited(history, apartments)
  {
    var all := apartments + apartments;
    assert ComplexNos(all) == ComplexNos(apartments) by {
      forall i | 0 <= i < |all|
        ensures all[i].complexNo in ComplexNos(apartments)
      {
        if i >= |apartments| {
          assert all[i] == apartments[i - |apartments|];
        }
      }
      forall i | 0 <= i < |apartments|
        ensures apartments[i].complexNo in ComplexNos(all)
      {
        assert all[i] == apartments[i];
      }
    }
  }

  class NaverMapEx {
    /** `map`: `None` until the map has been created. */
    var naverMap: Option<MapOptions>
    var filter: Filter
    var priceData: History
    var markers: seq<Marker>

    constructor()
      ensures naverMap == None && filter == DefaultFilter && priceData == map[] && markers == []
    {
      naverMap := None;
      filter := DefaultFilter;
      priceData := map[];
      markers := [];
    }

    /** `initializeMap`, run when the map script has loaded: the map is created only when
        the container element is mounted and the `naver` global exists. */
    method InitializeMap(containerMounted: bool, naverLoaded: bool)
      modifies this`naverMap
      ensures containerMounted && naverLoaded ==> naverMap == Some(InitialOptions)
      ensures !(containerMounted && naverLoaded) ==> naverMap == old(naverMap)
    {
      if containerMounted && naverLoaded {
        naverMap := Some(InitialOptions);
      }
    }

    /** The minimum-price input, given the number it holds. */
    method SetMinPrice(value: int)
      modifies this`filter
      ensures filter == old(filter).(minPrice := value)
    {
      filter := filter.(minPrice := value);
    }

    /** The maximum-price input: once edited, the maximum is a number and no longer unbounded. */
    method SetMaxPrice(value: int)
      modifies this`filter
      ensures filter == old(filter).(maxPrice := Some(value))
    {
      filter := filter.(maxPrice := Some(value));
    }

    method SetArea(value: string)
      modifies this`filter
      ensures filter == old(filter).(area := value)
    {
      filter := filter.(area := value);
    }

    method SetDealType(value: string)
      modifies this`filter
      ensures filter == old(filter).(dealType := value)
    {
      filter := filter.(dealType := value);
    }

    /** The callback `createMarkers` maps over the apartments: it sorts the apartment's
        history in place, newest first, and gives the marker for its head record under
        the effect's filter `f`, or nothing. `visited` are the apartments the pass has
        already handled. */
    method MarkerCallback(history: History, visited: seq<Apartment>, apt: Apartment, f: Filter) returns (marker: Option<Marker>)
      requires priceData == SortVisited(history, visited)
      modifies this`priceData
      ensures priceData == SortVisited(history, visited + [apt])
      ensures marker == MarkerFor(apt, history, f)
    {
      var k := apt.complexNo;
      var latest: Option<PriceRecord> := None;
      if k in priceData {
        ResortVisited(history, visited, k);
        var sorted := SortByDateDesc(priceData[k]);
        priceData := priceData[k := sorted];
        if sorted != [] {
          latest := Some(sorted[0]);
        }
      }
      marker := None;
      if latest.Some? && !Excluded(latest.value, apt, f) {
        marker := Some(Marker(apt, latest.value));
      }
      SortVisitedStep(history, visited, apt);
    }

    /** `createMarkers` over `apartments`, starting from the price data `history`: the
        callback runs once per apartment, in order, and the markers are those it returns
        that `filter(Boolean)` keeps. */
    method CreateMarkers(apartments: seq<Apartment>, history: History, f: Filter) returns (made: seq<Marker>)
      requires priceData == history
      modifies this`priceData
      ensures priceData == SortVisited(history, apartments)
      ensures made == Select(apartments, history, f)
    {
      SortVisitedNothing(history);
      made := [];
      var i := 0;
      while i < |apartments|
        invariant 0 <= i <= |apartments|
        invariant priceData == SortVisited(history, apartments[..i])
        invariant made == Select(apartments[..i], history, f)
      {
        var marker := MarkerCallback(history, apartments[..i], apartments[i], f);
        SelectStep(apartments[..i], apartments[i], history, f);
        assert apartments[..i + 1] == apartments[..i] + [apartments[i]];
        made := made + Kept(marker);
        i := i + 1;
      }
      assert apartments[..i] == apartments;
    }

    /** The effect that runs when the map or the filter changes, once its `fetchData`
        has given `fetched`. `captured` is the filter of the render that started this run:
        runs are never cancelled, so a run started before a later filter edit still
        selects with the older filter, and whichever run settles last leaves its state.
        Without a map it does nothing; otherwise the histories become the price data,
        the marker pass sorts the history of every complex it looks up, and the markers
        are those `Select` keeps, in apartment order. */
    method Refresh(captured: Filter, fetched: Fetched)
      modifies this`priceData, this`markers
      ensures naverMap.None? ==> priceData == old(priceData) && markers == old(markers)
      ensures naverMap.Some? ==>
        && priceData == SortVisited(Payload(fetched).1, Payload(fetched).0)
        && markers == Select(Payload(fetched).0, Payload(fetched).1, captured)
      ensures naverMap.Some? && fetched.FetchFailed? ==> priceData == map[] && markers == []
    {
      if naverMap.None? {
        return;
      }
      FailedFetchShowsNothing(captured);
      var apartments := Payload(fetched).0;
      var history := Payload(fetched).1;
      priceData := history;
      markers := CreateMarkers(apartments, history, captured);
    }
  }
}
