/** The aggregation of the market endpoints over the price records a query returned: the price
    history groups records by calendar day and averages each group, and the trends group
    records by crop and list each record as a market quote. Records arrive in the order of the
    query (date ascending for the history, descending for the trends). */
module Market {
  import opened Wrappers

  /** A timestamp as a calendar day number and the seconds into that day. */
  datatype DateTime = DateTime(day: int, secondOfDay: int)

  /** One `MarketPrice` row; the modal price is optional. */
  datatype PriceRecord = PriceRecord(
    cropName: string, marketName: string, minPrice: real, maxPrice: real, modalPrice: Option<real>, priceDate: DateTime)

  /** The calendar day of a record, the key `price_date.date()` groups by. */
  function DayOf(p: PriceRecord): int {
    p.priceDate.day
  }

  /** The two dictionaries of the endpoints: by day for the history, by crop for the trends. */
  datatype Grouping = ByDay | ByCrop

  datatype Key = DayKey(day: int) | CropKey(crop: string)

  function KeyOf(grouping: Grouping, p: PriceRecord): Key {
    match grouping
    case ByDay => DayKey(DayOf(p))
    case ByCrop => CropKey(p.cropName)
  }

  /** Python truthiness of the modal price: present and non-zero. */
  predicate HasModal(p: PriceRecord) {
    p.modalPrice.Some? && p.modalPrice.value != 0.0
  }

  // ---------------------------------------------------------------------------------------
  // Grouping by a key, as a dictionary keyed on first occurrence does it.

  /** The distinct keys of the records, in order of first occurrence. */
  function KeysInOrder(ps: seq<PriceRecord>, grouping: Grouping): seq<Key>
    decreases |ps|
  {
    if |ps| == 0 then []
    else
      var prev := KeysInOrder(ps[..|ps| - 1], grouping);
      if KeyOf(grouping, ps[|ps| - 1]) in prev then prev else prev + [KeyOf(grouping, ps[|ps| - 1])]
  }

  /** The keys are distinct. */
  lemma {:induction false} KeysDistinct(ps: seq<PriceRecord>, grouping: Grouping)
    ensures forall i, j :: 0 <= i < j < |KeysInOrder(ps, grouping)| ==>
      KeysInOrder(ps, grouping)[i] != KeysInOrder(ps, grouping)[j]
    decreases |ps|
  {
    if |ps| > 0 {
      var prev := KeysInOrder(ps[..|ps| - 1], grouping);
      KeysDistinct(ps[..|ps| - 1], grouping);
      var x := KeyOf(grouping, ps[|ps| - 1]);
      if x !in prev {
        assert forall i :: 0 <= i < |prev| ==> (prev + [x])[i] == prev[i];
      }
    }
  }

  /** Every record's key is among the keys, and the first record's key comes first. */
  lemma {:induction false} KeysCover(ps: seq<PriceRecord>, grouping: Grouping)
    ensures var ks := KeysInOrder(ps, grouping);
      && (forall i :: 0 <= i < |ps| ==> KeyOf(grouping, ps[i]) in ks)
      && (|ps| > 0 ==> |ks| > 0 && ks[0] == KeyOf(grouping, ps[0]))
    decreases |ps|
  {
    if |ps| > 0 {
      var prefix := ps[..|ps| - 1];
      KeysCover(prefix, grouping);
      assert forall i :: 0 <= i < |prefix| ==> prefix[i] == ps[i];
    }
  }

  /** The records with key k, in their order. */
  function Members(ps: seq<PriceRecord>, grouping: Grouping, k: Key): seq<PriceRecord>
    decreases |ps|
  {
    if |ps| == 0 then []
    else
      var last := ps[|ps| - 1];
      Members(ps[..|ps| - 1], grouping, k) + (if KeyOf(grouping, last) == k then [last] else [])
  }

  /** A group holds only records with its key. */
  lemma {:induction false} MembersHaveKey(ps: seq<PriceRecord>, grouping: Grouping, k: Key)
    ensures forall p :: p in Members(ps, grouping, k) ==> p in ps && KeyOf(grouping, p) == k
    decreases |ps|
  {
    if |ps| > 0 {
      var prefix := ps[..|ps| - 1];
      MembersHaveKey(prefix, grouping, k);
      assert forall p :: p in prefix ==> p in ps;
    }
  }

  /** Every record is in its own group, and a key has a non-empty group exactly when it occurs. */
  lemma {:induction false} MembersCover(ps: seq<PriceRecord>, grouping: Grouping, k: Key)
    ensures forall i :: 0 <= i < |ps| && KeyOf(grouping, ps[i]) == k ==> ps[i] in Members(ps, grouping, k)
    ensures |Members(ps, grouping, k)| > 0 <==> k in KeysInOrder(ps, grouping)
    decreases |ps|
  {
    if |ps| > 0 {
      var prefix := ps[..|ps| - 1];
      var last := ps[|ps| - 1];
      MembersCover(prefix, grouping, k);
      var before := Members(prefix, grouping, k);
      var extra := if KeyOf(grouping, last) == k then [last] else [];
      assert Members(ps, grouping, k) == before + extra;
      var prev := KeysInOrder(prefix, grouping);
      assert k in KeysInOrder(ps, grouping) <==> k in prev || KeyOf(grouping, last) == k;
      forall i | 0 <= i < |ps| && KeyOf(grouping, ps[i]) == k ensures ps[i] in Members(ps, grouping, k) {
        if i < |prefix| {
          assert prefix[i] == ps[i];
          assert ps[i] in before;
        }
      }
    }
  }

  /** Appending a record: its key is added when new, and it joins the end of its own group. */
  lemma GroupStep(ps: seq<PriceRecord>, grouping: Grouping, p: PriceRecord)
    ensures KeysInOrder(ps + [p], grouping) ==
      if KeyOf(grouping, p) in KeysInOrder(ps, grouping) then KeysInOrder(ps, grouping)
      else KeysInOrder(ps, grouping) + [KeyOf(grouping, p)]
    ensures forall d :: (Members(ps + [p], grouping, d) ==
      Members(ps, grouping, d) + (if KeyOf(grouping, p) == d then [p] else []))
  {
    assert (ps + [p])[..|ps|] == ps;
  }

  /** The first member of a group is the first record with that key. */
  lemma {:induction false} MembersFirst(ps: seq<PriceRecord>, grouping: Grouping, k: Key)
    requires |Members(ps, grouping, k)| > 0
    ensures exists i :: (0 <= i < |ps| && ps[i] == Members(ps, grouping, k)[0] && KeyOf(grouping, ps[i]) == k &&
      forall j :: 0 <= j < i ==> KeyOf(grouping, ps[j]) != k)
    decreases |ps|
  {
    var prefix := ps[..|ps| - 1];
    assert forall i :: 0 <= i < |prefix| ==> prefix[i] == ps[i];
    if |Members(prefix, grouping, k)| > 0 {
      MembersFirst(prefix, grouping, k);
    } else {
      MembersCover(prefix, grouping, k);
      assert k !in KeysInOrder(prefix, grouping);
      assert forall j :: 0 <= j < |prefix| ==> KeyOf(grouping, ps[j]) != k;
      assert Members(ps, grouping, k)[0] == ps[|ps| - 1];
    }
  }

  /** The total size of the groups of the given keys. */
  function GroupSizes(ps: seq<PriceRecord>, grouping: Grouping, ks: seq<Key>): nat
    decreases |ks|
  {
    if |ks| == 0 then 0 else GroupSizes(ps, grouping, ks[..|ks| - 1]) + |Members(ps, grouping, ks[|ks| - 1])|
  }

  /** One more record adds one to the group sizes of distinct keys that include its key. */
  lemma {:induction false} GroupSizesStep(ps: seq<PriceRecord>, grouping: Grouping, ks: seq<Key>)
    requires |ps| > 0
    requires forall i, j :: 0 <= i < j < |ks| ==> ks[i] != ks[j]
    ensures GroupSizes(ps, grouping, ks) ==
      GroupSizes(ps[..|ps| - 1], grouping, ks) + (if KeyOf(grouping, ps[|ps| - 1]) in ks then 1 else 0)
    decreases |ks|
  {
    if |ks| > 0 {
      var init := ks[..|ks| - 1];
      assert forall i :: 0 <= i < |init| ==> init[i] == ks[i];
      GroupSizesStep(ps, grouping, init);
      assert KeyOf(grouping, ps[|ps| - 1]) in ks <==> KeyOf(grouping, ps[|ps| - 1]) in init || KeyOf(grouping, ps[|ps| - 1]) == ks[|ks| - 1];
    }
  }

  /** The groups partition the records: their sizes add up to the number of records. */
  lemma {:induction false} GroupsPartition(ps: seq<PriceRecord>, grouping: Grouping)
    ensures GroupSizes(ps, grouping, KeysInOrder(ps, grouping)) == |ps|
    decreases |ps|
  {
    if |ps| > 0 {
      var prefix := ps[..|ps| - 1];
      var last := ps[|ps| - 1];
      var prev := KeysInOrder(prefix, grouping);
      KeysDistinct(prefix, grouping);
      GroupsPartition(prefix, grouping);
      GroupSizesStep(ps, grouping, prev);
      if KeyOf(grouping, last) !in prev {
        MembersCover(prefix, grouping, KeyOf(grouping, last));
        assert Members(ps, grouping, KeyOf(grouping, last)) == [last];
        assert (prev + [KeyOf(grouping, last)])[..|prev|] == prev;
      }
    }
  }

  // ---------------------------------------------------------------------------------------
  // Price history.

  function SumMin(g: seq<PriceRecord>): real
    decreases |g|
  {
    if |g| == 0 then 0.0 else SumMin(g[..|g| - 1]) + g[|g| - 1].minPrice
  }

  function SumMax(g: seq<PriceRecord>): real
    decreases |g|
  {
    if |g| == 0 then 0.0 else SumMax(g[..|g| - 1]) + g[|g| - 1].maxPrice
  }

  /** The sum of the truthy modal prices. */
  function SumModal(g: seq<PriceRecord>): real
    decreases |g|
  {
    if |g| == 0 then 0.0
    else SumModal(g[..|g| - 1]) + (if HasModal(g[|g| - 1]) then g[|g| - 1].modalPrice.value else 0.0)
  }

  /** The number of truthy modal prices. */
  function CountModal(g: seq<PriceRecord>): (count: nat)
    ensures count <= |g|
    decreases |g|
  {
    if |g| == 0 then 0 else CountModal(g[..|g| - 1]) + (if HasModal(g[|g| - 1]) then 1 else 0)
  }

  /** One entry of `price_history`, without the raw price list. */
  datatype DayPrices = DayPrices(date: int, avgMin: real, avgMax: real, avgModal: real)

  const DivisionByZero: string := "Error fetching price history: division by zero"

  /** Python's `sum(...) / len(...)` for a non-empty list. */
  function Mean(total: real, n: nat): real
    requires n > 0
  {
    total / n as real
  }

  /** A total between n * lo and n * hi has its mean between lo and hi. */
  lemma MeanBounds(total: real, n: nat, lo: real, hi: real)
    requires n > 0 && lo * n as real <= total <= hi * n as real
    ensures lo <= Mean(total, n) <= hi
  {
    var m := Mean(total, n);
    assert m * n as real == total;
  }

  /** The entry of one day's group: its day and the averages of its minimum, maximum and truthy
      modal prices. */
  function DayAverages(g: seq<PriceRecord>): DayPrices
    requires CountModal(g) > 0
  {
    DayPrices(DayOf(g[0]), Mean(SumMin(g), |g|), Mean(SumMax(g), |g|), Mean(SumModal(g), CountModal(g)))
  }

  /** The history of the listed days, in order, or the division-by-zero failure of the first day
      without a truthy modal price. */
  function HistoryOf(prices: seq<PriceRecord>, days: seq<Key>): (r: Result<seq<DayPrices>, string>)
    ensures r.Success? ==> |r.value| == |days|
    ensures r.Failure? ==> r.error == DivisionByZero
    decreases |days|
  {
    if |days| == 0 then Success([])
    else
      var g := Members(prices, ByDay, days[|days| - 1]);
      match HistoryOf(prices, days[..|days| - 1])
      case Failure(e) => Failure(e)
      case Success(h) => if CountModal(g) == 0 then Failure(DivisionByZero) else Success(h + [DayAverages(g)])
  }

  /** The history of some days fails exactly when one of them has no truthy modal price. */
  lemma {:induction false} HistoryOfFails(prices: seq<PriceRecord>, days: seq<Key>)
    ensures HistoryOf(prices, days).Failure? <==>
      exists j :: 0 <= j < |days| && CountModal(Members(prices, ByDay, days[j])) == 0
    decreases |days|
  {
    if |days| > 0 {
      var init := days[..|days| - 1];
      HistoryOfFails(prices, init);
      assert forall j :: 0 <= j < |init| ==> init[j] == days[j];
    }
  }

  /** What `get_price_history` answers for the records of its query. */
  function PriceHistory(prices: seq<PriceRecord>): Result<seq<DayPrices>, string> {
    HistoryOf(prices, KeysInOrder(prices, ByDay))
  }

  /** The dictionary of a grouping loop after the records ps: its keys in insertion order are
      the keys of ps in order of first occurrence, each mapped to the records with that key. */
  ghost predicate Grouped(ps: seq<PriceRecord>, grouping: Grouping, keys: seq<Key>, groups: map<Key, seq<PriceRecord>>) {
    && keys == KeysInOrder(ps, grouping)
    && (forall k :: k in groups <==> k in keys)
    && (forall k :: k in groups ==> groups[k] == Members(ps, grouping, k))
  }

  /** One iteration of the grouping loop: a new key gets an empty list, then the record is
      appended to its key's list. */
  lemma GroupedStep(ps: seq<PriceRecord>, grouping: Grouping, p: PriceRecord,
                    keys: seq<Key>, groups: map<Key, seq<PriceRecord>>)
    requires Grouped(ps, grouping, keys, groups)
    ensures var k := KeyOf(grouping, p);
      var started := if k in groups then groups else groups[k := []];
      Grouped(ps + [p], grouping, if k in groups then keys else keys + [k], started[k := started[k] + [p]])
  {
    var k := KeyOf(grouping, p);
    GroupStep(ps, grouping, p);
    if k !in groups {
      MembersCover(ps, grouping, k);
    }
  }

  /** The first loop of `get_price_history`: the dictionary from each day to the records of
      that day, with its keys in insertion order. */
  method GroupByDay(prices: seq<PriceRecord>) returns (days: seq<Key>, groups: map<Key, seq<PriceRecord>>)
    ensures days == KeysInOrder(prices, ByDay)
    ensures forall d :: d in groups <==> d in days
    ensures forall d :: d in groups ==> groups[d] == Members(prices, ByDay, d)
  {
    days := [];
    groups := map[];
    for i := 0 to |prices|
      invariant Grouped(prices[..i], ByDay, days, groups)
    {
      var price := prices[i];
      var dateKey := KeyOf(ByDay, price);
      assert prices[..i + 1] == prices[..i] + [price];
      GroupedStep(prices[..i], ByDay, price, days, groups);
      if dateKey !in groups {
        days := days + [dateKey];
        groups := groups[dateKey := []];
      }
      groups := groups[dateKey := groups[dateKey] + [price]];
    }
    assert prices[..|prices|] == prices;
  }

  /** `get_price_history`: groups the records by day, then replaces each group by its averages;
      a day without a truthy modal price divides by zero and the request fails. */
  method GetPriceHistory(prices: seq<PriceRecord>) returns (result: Result<seq<DayPrices>, string>)
    ensures result == PriceHistory(prices)
  {
    var days, groups := GroupByDay(prices);
    var history: seq<DayPrices> := [];
    for j := 0 to |days|
      invariant HistoryOf(prices, days[..j]) == Success(history)
    {
      var pricesList := groups[days[j]];
      assert days[..j + 1][..j] == days[..j] && days[..j + 1][j] == days[j];
      if CountModal(pricesList) == 0 {
        HistoryOfFails(prices, days);
        return Failure(DivisionByZero);
      }
      history := history + [DayAverages(pricesList)];
    }
    assert days[..|days|] == days;
    result := Success(history);
  }

  /** Each day appears once, the first record's day first, every record belongs to the group of
      its day, and the groups together hold every record exactly once. */
  lemma PriceHistoryGrouping(prices: seq<PriceRecord>)
    ensures var days := KeysInOrder(prices, ByDay);
      && (forall i, j :: 0 <= i < j < |days| ==> days[i] != days[j])
      && (|prices| > 0 ==> days[0] == DayKey(DayOf(prices[0])))
      && (forall i :: 0 <= i < |prices| ==> prices[i] in Members(prices, ByDay, DayKey(DayOf(prices[i]))))
      && GroupSizes(prices, ByDay, days) == |prices|
  {
    KeysDistinct(prices, ByDay);
    KeysCover(prices, ByDay);
    forall i | 0 <= i < |prices| ensures prices[i] in Members(prices, ByDay, DayKey(DayOf(prices[i]))) {
      MembersCover(prices, ByDay, KeyOf(ByDay, prices[i]));
    }
    GroupsPartition(prices, ByDay);
  }

  /** A successful history has, for each listed day, the averages of that day's group. */
  lemma {:induction false} HistoryOfEntries(prices: seq<PriceRecord>, days: seq<Key>)
    requires HistoryOf(prices, days).Success?
    ensures forall k :: 0 <= k < |days| ==>
      CountModal(Members(prices, ByDay, days[k])) > 0 &&
      HistoryOf(prices, days).value[k] == DayAverages(Members(prices, ByDay, days[k]))
    decreases |days|
  {
    if |days| > 0 {
      var init := days[..|days| - 1];
      HistoryOfEntries(prices, init);
      assert forall k :: 0 <= k < |init| ==> init[k] == days[k];
    }
  }

  /** A successful history has one entry per day, in order of first occurrence, each dated with
      its day and holding the averages of that day's records; no date appears twice. */
  lemma PriceHistoryEntries(prices: seq<PriceRecord>)
    requires PriceHistory(prices).Success?
    ensures var days := KeysInOrder(prices, ByDay); var h := PriceHistory(prices).value;
      && |h| == |days|
      && (forall k :: 0 <= k < |h| ==>
            (DayKey(h[k].date) == days[k] && CountModal(Members(prices, ByDay, days[k])) > 0 &&
             h[k] == DayAverages(Members(prices, ByDay, days[k]))))
      && (forall i, j :: 0 <= i < j < |h| ==> h[i].date != h[j].date)
  {
    var days := KeysInOrder(prices, ByDay);
    HistoryOfEntries(prices, days);
    KeysDistinct(prices, ByDay);
    forall k | 0 <= k < |days| ensures DayKey(PriceHistory(prices).value[k].date) == days[k] {
      var g := Members(prices, ByDay, days[k]);
      MembersHaveKey(prices, ByDay, days[k]);
      assert g[0] in g;
    }
  }

  /** The history fails, with the division-by-zero message, exactly when some day has no record
      with a truthy modal price. */
  lemma PriceHistoryFailure(prices: seq<PriceRecord>)
    ensures PriceHistory(prices).Failure? <==>
      exists d :: d in KeysInOrder(prices, ByDay) && CountModal(Members(prices, ByDay, d)) == 0
    ensures PriceHistory(prices).Failure? ==> PriceHistory(prices).error == DivisionByZero
  {
    var days := KeysInOrder(prices, ByDay);
    HistoryOfFails(prices, days);
    if exists d :: d in days && CountModal(Members(prices, ByDay, d)) == 0 {
      var d :| d in days && CountModal(Members(prices, ByDay, d)) == 0;
      var j :| 0 <= j < |days| && days[j] == d;
    }
  }

  /** The bounds of a sum of minimum prices that all lie in [lo, hi]. */
  lemma {:induction false} SumMinBounds(g: seq<PriceRecord>, lo: real, hi: real)
    requires forall i :: 0 <= i < |g| ==> lo <= g[i].minPrice <= hi
    ensures lo * |g| as real <= SumMin(g) <= hi * |g| as real
    decreases |g|
  {
    if |g| > 0 {
      var init := g[..|g| - 1];
      var n := |init| as real;
      SumMinBounds(init, lo, hi);
      assert lo * (n + 1.0) == lo * n + lo;
      assert hi * (n + 1.0) == hi * n + hi;
    }
  }

  /** The average minimum of a day's group (the `avgMin` of its entry) lies between the smallest
      and largest minimum of its records; equal minimums average to that value. */
  lemma AverageMinWithinRange(g: seq<PriceRecord>, lo: real, hi: real)
    requires |g| > 0
    requires forall i :: 0 <= i < |g| ==> lo <= g[i].minPrice <= hi
    ensures lo <= Mean(SumMin(g), |g|) <= hi
  {
    SumMinBounds(g, lo, hi);
    MeanBounds(SumMin(g), |g|, lo, hi);
  }


  /** A day whose only record has a zero modal price makes the history fail. */
  lemma OneZeroModalFailsHistory(crop: string, market: string)
    ensures PriceHistory([PriceRecord(crop, market, 100.0, 200.0, Some(0.0), DateTime(0, 0))]) == Failure(DivisionByZero)
  {
    var ps := [PriceRecord(crop, market, 100.0, 200.0, Some(0.0), DateTime(0, 0))];
    assert ps[..0] == [];
    assert KeysInOrder(ps, ByDay) == [DayKey(0)];
    assert Members(ps, ByDay, DayKey(0)) == ps;
    assert CountModal(ps) == 0;
    assert CountModal(Members(ps, ByDay, [DayKey(0)][0])) == 0;
  }

  // ---------------------------------------------------------------------------------------
  // Market trends.

  /** `modal_price or (min_price + max_price) / 2` */
  function PriceOf(p: PriceRecord): (price: real)
    ensures HasModal(p) ==> price == p.modalPrice.value
    ensures !HasModal(p) ==> price == (p.minPrice + p.maxPrice) / 2.0
  {
    if HasModal(p) then p.modalPrice.value else (p.minPrice + p.maxPrice) / 2.0
  }

  datatype MarketQuote = MarketQuote(marketName: string, price: real, date: DateTime)

  datatype Trend = Trend(cropName: string, currentPrice: real, priceChange: real, trend: string, markets: seq<MarketQuote>)

  function QuoteOf(p: PriceRecord): MarketQuote {
    MarketQuote(p.marketName, PriceOf(p), p.priceDate)
  }

  function Quotes(g: seq<PriceRecord>): (qs: seq<MarketQuote>)
    ensures |qs| == |g|
    ensures forall i :: 0 <= i < |g| ==> qs[i] == QuoteOf(g[i])
  {
    seq(|g|, i requires 0 <= i < |g| => QuoteOf(g[i]))
  }

  /** The trend built from a crop's records: named after the crop, priced by its first record,
      with no change and one quote per record. */
  function TrendOf(g: seq<PriceRecord>): Trend
    requires |g| > 0
  {
    Trend(g[0].cropName, PriceOf(g[0]), 0.0, "stable", Quotes(g))
  }

  /** The dictionary entry as the loop first creates it, and as each further record extends it. */
  lemma TrendStep(g: seq<PriceRecord>, p: PriceRecord)
    ensures TrendOf([p]) == Trend(p.cropName, PriceOf(p), 0.0, "stable", [QuoteOf(p)])
    ensures |g| > 0 ==> TrendOf(g + [p]) == TrendOf(g).(markets := TrendOf(g).markets + [QuoteOf(p)])
  {
    if |g| > 0 {
      assert (g + [p])[0] == g[0];
      assert Quotes(g + [p]) == Quotes(g) + [QuoteOf(p)];
    }
  }

  /** The trends of the listed crops, in order; a crop without records has none. */
  function TrendsOf(prices: seq<PriceRecord>, crops: seq<Key>): seq<Trend>
    decreases |crops|
  {
    if |crops| == 0 then []
    else
      var g := Members(prices, ByCrop, crops[|crops| - 1]);
      TrendsOf(prices, crops[..|crops| - 1]) + (if |g| > 0 then [TrendOf(g)] else [])
  }

  /** What `get_market_trends` answers for the records of its query. */
  function MarketTrends(prices: seq<PriceRecord>): seq<Trend> {
    TrendsOf(prices, KeysInOrder(prices, ByCrop))
  }

  /** The dictionary of the trends loop after the records ps: its keys in insertion order are
      the crops of ps in order of first occurrence, each mapped to the trend of its records. */
  ghost predicate Trended(ps: seq<PriceRecord>, crops: seq<Key>, byCrop: map<Key, Trend>) {
    && crops == KeysInOrder(ps, ByCrop)
    && (forall c :: c in byCrop <==> c in crops)
    && (forall c :: c in byCrop ==> |Members(ps, ByCrop, c)| > 0 && byCrop[c] == TrendOf(Members(ps, ByCrop, c)))
  }

  /** The dictionary after one iteration of the trends loop: a new crop gets its entry, then
      the record's quote is appended to its crop's entry. */
  function Extended(byCrop: map<Key, Trend>, p: PriceRecord): map<Key, Trend> {
    var c := KeyOf(ByCrop, p);
    var started := if c in byCrop then byCrop else byCrop[c := Trend(p.cropName, PriceOf(p), 0.0, "stable", [])];
    started[c := started[c].(markets := started[c].markets + [QuoteOf(p)])]
  }

  /** After one iteration, each entry is the trend of its crop's records. */
  lemma TrendedEntry(ps: seq<PriceRecord>, p: PriceRecord, crops: seq<Key>, byCrop: map<Key, Trend>, d: Key)
    requires Trended(ps, crops, byCrop)
    requires d in Extended(byCrop, p)
    ensures |Members(ps + [p], ByCrop, d)| > 0 && Extended(byCrop, p)[d] == TrendOf(Members(ps + [p], ByCrop, d))
  {
    var c := KeyOf(ByCrop, p);
    assert (ps + [p])[..|ps|] == ps;
    if d == c {
      TrendStep(Members(ps, ByCrop, c), p);
      if c !in byCrop {
        MembersCover(ps, ByCrop, c);
        assert Members(ps + [p], ByCrop, c) == [p];
      }
    }
  }

  /** One iteration of the trends loop keeps the dictionary the trends of the records seen. */
  lemma TrendedStep(ps: seq<PriceRecord>, p: PriceRecord, crops: seq<Key>, byCrop: map<Key, Trend>)
    requires Trended(ps, crops, byCrop)
    ensures Trended(ps + [p], if KeyOf(ByCrop, p) in byCrop then crops else crops + [KeyOf(ByCrop, p)], Extended(byCrop, p))
  {
    assert (ps + [p])[..|ps|] == ps;
    forall d | d in Extended(byCrop, p)
      ensures |Members(ps + [p], ByCrop, d)| > 0 && Extended(byCrop, p)[d] == TrendOf(Members(ps + [p], ByCrop, d))
    {
      TrendedEntry(ps, p, crops, byCrop, d);
    }
  }

  /** The loop of `get_market_trends`: the dictionary from each crop to its trend entry, with
      its keys in insertion order. */
  method GroupByCrop(prices: seq<PriceRecord>) returns (crops: seq<Key>, byCrop: map<Key, Trend>)
    ensures crops == KeysInOrder(prices, ByCrop)
    ensures forall c :: c in byCrop <==> c in crops
    ensures forall c :: c in byCrop ==>
      (|Members(prices, ByCrop, c)| > 0 && byCrop[c] == TrendOf(Members(prices, ByCrop, c)))
  {
    crops := [];
    byCrop := map[];
    for i := 0 to |prices|
      invariant Trended(prices[..i], crops, byCrop)
    {
      var price := prices[i];
      var cropKey := KeyOf(ByCrop, price);
      assert prices[..i + 1] == prices[..i] + [price];
      TrendedStep(prices[..i], price, crops, byCrop);
      if cropKey !in byCrop {
        crops := crops + [cropKey];
        byCrop := byCrop[cropKey := Trend(price.cropName, PriceOf(price), 0.0, "stable", [])];
      }
      var entry := byCrop[cropKey];
      byCrop := byCrop[cropKey := entry.(markets := entry.markets + [QuoteOf(price)])];
    }
    assert prices[..|prices|] == prices;
  }

  /** `get_market_trends`: the dictionary's values, in insertion order. */
  method GetMarketTrends(prices: seq<PriceRecord>) returns (trends: seq<Trend>)
    ensures trends == MarketTrends(prices)
  {
    var crops, byCrop := GroupByCrop(prices);
    trends := [];
    for j := 0 to |crops|
      invariant trends == TrendsOf(prices, crops[..j])
    {
      assert crops[..j + 1][..j] == crops[..j] && crops[..j + 1][j] == crops[j];
      trends := trends + [byCrop[crops[j]]];
    }
    assert crops[..|crops|] == crops;
  }

  /** The total number of market quotes over a list of trends. */
  function QuoteCount(trends: seq<Trend>): nat
    decreases |trends|
  {
    if |trends| == 0 then 0 else QuoteCount(trends[..|trends| - 1]) + |trends[|trends| - 1].markets|
  }

  /** The trends of crops that all have records: one per crop, each made from that crop's group. */
  lemma {:induction false} TrendsOfEntries(prices: seq<PriceRecord>, crops: seq<Key>)
    requires forall j :: 0 <= j < |crops| ==> |Members(prices, ByCrop, crops[j])| > 0
    ensures |TrendsOf(prices, crops)| == |crops|
    ensures forall j :: 0 <= j < |crops| ==> TrendsOf(prices, crops)[j] == TrendOf(Members(prices, ByCrop, crops[j]))
    decreases |crops|
  {
    if |crops| > 0 {
      var init := crops[..|crops| - 1];
      assert forall j :: 0 <= j < |init| ==> init[j] == crops[j];
      TrendsOfEntries(prices, init);
      var last := TrendOf(Members(prices, ByCrop, crops[|crops| - 1]));
      var all := TrendsOf(prices, crops);
      assert all == TrendsOf(prices, init) + [last];
      forall j | 0 <= j < |crops| ensures all[j] == TrendOf(Members(prices, ByCrop, crops[j])) {
        if j < |init| {
          assert all[j] == TrendsOf(prices, init)[j];
        }
      }
    }
  }

  /** The trends of some crops have as many quotes in total as the crops have records. */
  lemma {:induction false} TrendsOfQuotes(prices: seq<PriceRecord>, crops: seq<Key>)
    ensures QuoteCount(TrendsOf(prices, crops)) == GroupSizes(prices, ByCrop, crops)
    decreases |crops|
  {
    if |crops| > 0 {
      var init := crops[..|crops| - 1];
      TrendsOfQuotes(prices, init);
      var g := Members(prices, ByCrop, crops[|crops| - 1]);
      var extra := if |g| > 0 then [TrendOf(g)] else [];
      QuoteCountAppend(TrendsOf(prices, init), extra);
    }
  }

  lemma {:induction false} QuoteCountAppend(a: seq<Trend>, b: seq<Trend>)
    ensures QuoteCount(a + b) == QuoteCount(a) + QuoteCount(b)
    decreases |b|
  {
    if |b| > 0 {
      var init := b[..|b| - 1];
      QuoteCountAppend(a, init);
      assert (a + b)[..|a + b| - 1] == a + init;
    } else {
      assert a + b == a;
    }
  }

  /** The trends are the groups of the crops in order of first occurrence, each named after
      its crop. */
  lemma MarketTrendsAreGroups(prices: seq<PriceRecord>)
    ensures var crops := KeysInOrder(prices, ByCrop); var trends := MarketTrends(prices);
      && |trends| == |crops|
      && forall j :: 0 <= j < |crops| ==>
           (|Members(prices, ByCrop, crops[j])| > 0 && trends[j] == TrendOf(Members(prices, ByCrop, crops[j])) &&
            CropKey(trends[j].cropName) == crops[j])
  {
    var crops := KeysInOrder(prices, ByCrop);
    forall j | 0 <= j < |crops| ensures |Members(prices, ByCrop, crops[j])| > 0 {
      MembersCover(prices, ByCrop, crops[j]);
    }
    TrendsOfEntries(prices, crops);
    forall j | 0 <= j < |crops| ensures CropKey(TrendOf(Members(prices, ByCrop, crops[j])).cropName) == crops[j] {
      var g := Members(prices, ByCrop, crops[j]);
      MembersHaveKey(prices, ByCrop, crops[j]);
      assert g[0] in g;
    }
  }

  /** Each crop has exactly one trend: no crop twice, and every record's crop present. */
  lemma MarketTrendsOnePerCrop(prices: seq<PriceRecord>)
    ensures var trends := MarketTrends(prices);
      && (forall i, j :: 0 <= i < j < |trends| ==> trends[i].cropName != trends[j].cropName)
      && (forall i :: 0 <= i < |prices| ==> exists j :: 0 <= j < |trends| && trends[j].cropName == prices[i].cropName)
  {
    var crops := KeysInOrder(prices, ByCrop);
    var trends := MarketTrends(prices);
    MarketTrendsAreGroups(prices);
    KeysDistinct(prices, ByCrop);
    KeysCover(prices, ByCrop);
    forall i | 0 <= i < |prices|
      ensures exists j :: 0 <= j < |trends| && trends[j].cropName == prices[i].cropName
    {
      assert KeyOf(ByCrop, prices[i]) in crops;
      var j :| 0 <= j < |crops| && crops[j] == CropKey(prices[i].cropName);
      assert CropKey(trends[j].cropName) == crops[j];
    }
  }

  /** Every trend reports the price of its crop's first (most recent) record, no change and a
      "stable" trend. */
  lemma MarketTrendsCurrentPrice(prices: seq<PriceRecord>)
    ensures var trends := MarketTrends(prices);
      && (forall j :: 0 <= j < |trends| ==> trends[j].priceChange == 0.0 && trends[j].trend == "stable")
      && (forall j :: 0 <= j < |trends| ==>
            exists i :: (0 <= i < |prices| && prices[i].cropName == trends[j].cropName &&
              trends[j].currentPrice == PriceOf(prices[i]) &&
              forall k :: 0 <= k < i ==> prices[k].cropName != trends[j].cropName))
  {
    var crops := KeysInOrder(prices, ByCrop);
    var trends := MarketTrends(prices);
    MarketTrendsAreGroups(prices);
    forall j | 0 <= j < |trends|
      ensures exists i :: (0 <= i < |prices| && prices[i].cropName == trends[j].cropName &&
        trends[j].currentPrice == PriceOf(prices[i]) &&
        forall k :: 0 <= k < i ==> prices[k].cropName != trends[j].cropName)
    {
      MembersFirst(prices, ByCrop, crops[j]);
    }
  }

  /** The market quotes over all trends number exactly the records: each record is listed once. */
  lemma MarketTrendsQuoteEveryRecord(prices: seq<PriceRecord>)
    ensures QuoteCount(MarketTrends(prices)) == |prices|
  {
    TrendsOfQuotes(prices, KeysInOrder(prices, ByCrop));
    GroupsPartition(prices, ByCrop);
  }
}
