/** An apartment's price history and the sort the map applies to it:
    `history.sort((a, b) => b.Date - a.Date)`, newest first. `Array.prototype.sort`
    is stable, so records with the same date keep their order. */
module PriceHistory {

  /** One price record; `date` is the numeric `Date` the comparator subtracts. */
  datatype PriceRecord = PriceRecord(date: int, dealPriceMin: int, dealPriceMax: int, leasePriceMin: int, leasePriceMax: int)

  /** Newest first. */
  predicate Descending(s: seq<PriceRecord>) {
    forall i, j :: 0 <= i < j < |s| ==> s[i].date >= s[j].date
  }

  /** Places `x` in front of the first record that is not newer than it, so that `x`,
      which came earlier in the input, stays ahead of records with its date. */
  function Insert(x: PriceRecord, s: seq<PriceRecord>): (r: seq<PriceRecord>)
    ensures |r| == |s| + 1
    ensures multiset(r) == multiset(s) + multiset{x}
    decreases s
  {
    if s == [] || s[0].date <= x.date then [x] + s
    else
      assert s == [s[0]] + s[1..];
      [s[0]] + Insert(x, s[1..])
  }

  /** The stable sort by descending date (an insertion sort). */
  function SortByDateDesc(s: seq<PriceRecord>): (r: seq<PriceRecord>)
    ensures |r| == |s|
    ensures multiset(r) == multiset(s)
    decreases s
  {
    if s == [] then []
    else
      assert s == [s[0]] + s[1..];
      Insert(s[0], SortByDateDesc(s[1..]))
  }

  lemma {:induction false} InsertKeepsDescending(x: PriceRecord, s: seq<PriceRecord>)
    requires Descending(s)
    ensures Descending(Insert(x, s))
    decreases s
  {
    if s != [] && s[0].date > x.date {
      InsertKeepsDescending(x, s[1..]);
      var r := Insert(x, s);
      assert r == [s[0]] + Insert(x, s[1..]);
      forall j | 1 <= j < |r|
        ensures r[0].date >= r[j].date
      {
        assert r[j] in multiset(Insert(x, s[1..]));
        assert r[j] in multiset(s[1..]) + multiset{x};
        if r[j] != x {
          var k :| 0 <= k < |s[1..]| && s[1..][k] == r[j];
          assert s[k + 1] == r[j];
        }
      }
    }
  }

  /** The sort's result is newest first. */
  lemma {:induction false} SortIsDescending(s: seq<PriceRecord>)
    ensures Descending(SortByDateDesc(s))
    decreases s
  {
    if s != [] {
      SortIsDescending(s[1..]);
      InsertKeepsDescending(s[0], SortByDateDesc(s[1..]));
    }
  }

  /** Sorting a history that is already newest first leaves it as it is; in particular,
      sorting the same history twice gives what sorting it once gives. */
  lemma {:induction false} SortKeepsDescending(s: seq<PriceRecord>)
    requires Descending(s)
    ensures SortByDateDesc(s) == s
    decreases s
  {
    if s != [] {
      assert Descending(s[1..]);
      SortKeepsDescending(s[1..]);
      if |s| > 1 {
        assert s[1].date <= s[0].date;
      }
      assert s == [s[0]] + s[1..];
    }
  }

  lemma SortIdempotent(s: seq<PriceRecord>)
    ensures SortByDateDesc(SortByDateDesc(s)) == SortByDateDesc(s)
  {
    SortIsDescending(s);
    SortKeepsDescending(SortByDateDesc(s));
  }

  /** The index of the first record carrying the newest date: a reference definition of
      "the latest price" that does not sort. */
  function FirstLatest(s: seq<PriceRecord>): (k: nat)
    requires s != []
    ensures k < |s|
    ensures forall j :: 0 <= j < |s| ==> s[j].date <= s[k].date
    ensures forall j :: 0 <= j < k ==> s[j].date < s[k].date
    decreases s
  {
    if |s| == 1 then 0
    else
      var k := 1 + FirstLatest(s[1..]);
      if s[0].date >= s[k].date then 0 else k
  }

  /** The head of the sorted history is the first record with the newest date. */
  lemma {:induction false} SortHeadIsFirstLatest(s: seq<PriceRecord>)
    requires s != []
    ensures SortByDateDesc(s)[0] == s[FirstLatest(s)]
    decreases s
  {
    if |s| > 1 {
      SortHeadIsFirstLatest(s[1..]);
    }
  }
}
