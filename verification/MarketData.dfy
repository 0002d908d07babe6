/** The bar table of storage/repositories.py and the batch check of data/validation.py.
    A symbol names one instrument (its column is unique), so bars are selected by
    instrument; the timeframe is always "1d". */
module MarketData {
  import opened Wrappers
  import opened Models

  datatype BarKey = BarKey(instrumentId: int, timestamp: int, adjusted: string, source: string)

  datatype Quote = Quote(open: real, high: real, low: real, close: real, volume: real)

  datatype BarRow = BarRow(key: BarKey, quote: Quote)

  function KeyOf(b: Bar): BarKey {
    BarKey(b.instrumentId, b.timestamp, b.adjusted, b.source)
  }

  function QuoteOf(b: Bar): Quote {
    Quote(b.open, b.high, b.low, b.close, b.volume)
  }

  function ToBar(r: BarRow): Bar {
    Bar(r.key.instrumentId, r.key.timestamp, r.quote.open, r.quote.high, r.quote.low, r.quote.close,
        r.quote.volume, r.key.adjusted, r.key.source)
  }

  // ----- Upserts -----

  function Upsert(rows: seq<BarRow>, bar: Bar): seq<BarRow> {
    if rows == [] then [BarRow(KeyOf(bar), QuoteOf(bar))]
    else if rows[0].key == KeyOf(bar) then [rows[0].(quote := QuoteOf(bar))] + rows[1..]
    else [rows[0]] + Upsert(rows[1..], bar)
  }

  function UpsertAll(rows: seq<BarRow>, batch: seq<Bar>): seq<BarRow>
    decreases |batch|
  {
    if batch == [] then rows else UpsertAll(Upsert(rows, batch[0]), batch[1..])
  }

  function AsMap(rows: seq<BarRow>): map<BarKey, Quote> {
    if rows == [] then map[] else AsMap(rows[1..])[rows[0].key := rows[0].quote]
  }

  ghost predicate KeysUnique(rows: seq<BarRow>) {
    rows == [] || (rows[0].key !in AsMap(rows[1..]) && KeysUnique(rows[1..]))
  }

  ghost predicate HasKey(rows: seq<BarRow>, k: BarKey) {
    exists i :: 0 <= i < |rows| && rows[i].key == k
  }

  /** What a batch does to the table, seen as a dictionary: later bars win. */
  function Overridden(m: map<BarKey, Quote>, batch: seq<Bar>): map<BarKey, Quote>
    decreases |batch|
  {
    if batch == [] then m else Overridden(m[KeyOf(batch[0]) := QuoteOf(batch[0])], batch[1..])
  }

  lemma {:induction false} AsMapKeys(rows: seq<BarRow>, k: BarKey)
    ensures k in AsMap(rows) <==> HasKey(rows, k)
  {
    if rows != [] {
      AsMapKeys(rows[1..], k);
      if HasKey(rows[1..], k) {
        var i :| 0 <= i < |rows[1..]| && rows[1..][i].key == k;
        assert rows[i + 1].key == k;
      }
      if HasKey(rows, k) {
        var i :| 0 <= i < |rows| && rows[i].key == k;
        assert i == 0 || rows[i] == rows[1..][i - 1];
      }
    }
  }

  /** One upsert overrides one dictionary entry, keeps keys unique and never moves a row. */
  lemma {:induction false} UpsertOverrides(rows: seq<BarRow>, bar: Bar)
    requires KeysUnique(rows)
    ensures KeysUnique(Upsert(rows, bar))
    ensures AsMap(Upsert(rows, bar)) == AsMap(rows)[KeyOf(bar) := QuoteOf(bar)]
    ensures |rows| <= |Upsert(rows, bar)|
    ensures forall i :: 0 <= i < |rows| ==> Upsert(rows, bar)[i].key == rows[i].key
    ensures KeyOf(bar) in AsMap(rows) ==> |Upsert(rows, bar)| == |rows|
  {
    if rows != [] {
      var now := Upsert(rows, bar);
      if rows[0].key == KeyOf(bar) {
        assert now[1..] == rows[1..];
      } else {
        UpsertOverrides(rows[1..], bar);
        assert now[1..] == Upsert(rows[1..], bar);
      }
    }
  }

  /** Any sequence of upserts is a sequence of dictionary overrides. */
  lemma {:induction false} UpsertAllOverrides(rows: seq<BarRow>, batch: seq<Bar>)
    requires KeysUnique(rows)
    ensures KeysUnique(UpsertAll(rows, batch))
    ensures AsMap(UpsertAll(rows, batch)) == Overridden(AsMap(rows), batch)
    ensures |rows| <= |UpsertAll(rows, batch)|
    ensures forall i :: 0 <= i < |rows| ==> UpsertAll(rows, batch)[i].key == rows[i].key
    ensures (forall i :: 0 <= i < |batch| ==> KeyOf(batch[i]) in AsMap(rows)) ==> |UpsertAll(rows, batch)| == |rows|
    decreases |batch|
  {
    if batch != [] {
      UpsertOverrides(rows, batch[0]);
      UpsertAllOverrides(Upsert(rows, batch[0]), batch[1..]);
    }
  }

  lemma {:induction false} OverriddenAt(m: map<BarKey, Quote>, batch: seq<Bar>, k: BarKey)
    ensures k in Overridden(m, batch) <==> k in m || exists i :: 0 <= i < |batch| && KeyOf(batch[i]) == k
    ensures (forall i :: 0 <= i < |batch| ==> KeyOf(batch[i]) != k) && k in m ==> Overridden(m, batch)[k] == m[k]
    decreases |batch|
  {
    if batch != [] {
      OverriddenAt(m[KeyOf(batch[0]) := QuoteOf(batch[0])], batch[1..], k);
      if k in Overridden(m, batch) && k !in m && KeyOf(batch[0]) != k {
        var i :| 0 <= i < |batch[1..]| && KeyOf(batch[1..][i]) == k;
        assert batch[i + 1] == batch[1..][i];
      }
      if i :| 0 <= i < |batch| && KeyOf(batch[i]) == k {
        assert i == 0 || batch[i] == batch[1..][i - 1];
      }
    }
  }

  /** The last bar of a key decides its quote, whatever was stored before. */
  lemma {:induction false} OverriddenForgets(m: map<BarKey, Quote>, n: map<BarKey, Quote>, batch: seq<Bar>, k: BarKey)
    requires exists i :: 0 <= i < |batch| && KeyOf(batch[i]) == k
    ensures k in Overridden(m, batch) && k in Overridden(n, batch) && Overridden(m, batch)[k] == Overridden(n, batch)[k]
    decreases |batch|
  {
    var m1, n1, rest := m[KeyOf(batch[0]) := QuoteOf(batch[0])], n[KeyOf(batch[0]) := QuoteOf(batch[0])], batch[1..];
    if j :| 0 <= j < |rest| && KeyOf(rest[j]) == k {
      OverriddenForgets(m1, n1, rest, k);
    } else {
      var i :| 0 <= i < |batch| && KeyOf(batch[i]) == k;
      assert i == 0;
      OverriddenAt(m1, rest, k);
      OverriddenAt(n1, rest, k);
    }
  }

  /** Storing a batch again changes nothing, neither quotes nor rows. */
  lemma SyncTwiceIsSyncOnce(rows: seq<BarRow>, batch: seq<Bar>)
    requires KeysUnique(rows)
    ensures UpsertAll(UpsertAll(rows, batch), batch) == UpsertAll(rows, batch)
  {
    var m, once := AsMap(rows), UpsertAll(rows, batch);
    UpsertAllOverrides(rows, batch);
    forall i | 0 <= i < |batch| ensures KeyOf(batch[i]) in AsMap(once) {
      OverriddenAt(m, batch, KeyOf(batch[i]));
    }
    UpsertAllOverrides(once, batch);
    var twice := Overridden(AsMap(once), batch);
    forall k ensures k in twice <==> k in AsMap(once)
             ensures k in AsMap(once) ==> twice[k] == AsMap(once)[k]
    {
      OverriddenAt(AsMap(once), batch, k);
      if i :| 0 <= i < |batch| && KeyOf(batch[i]) == k {
        OverriddenForgets(m, AsMap(once), batch, k);
      }
    }
    assert twice == AsMap(once);
    SameKeysSameRows(UpsertAll(once, batch), once);
  }

  lemma {:induction false} SameKeysSameRows(a: seq<BarRow>, b: seq<BarRow>)
    requires KeysUnique(a) && KeysUnique(b) && AsMap(a) == AsMap(b)
    requires |a| == |b| && forall i :: 0 <= i < |a| ==> a[i].key == b[i].key
    ensures a == b
  {
    if a != [] {
      assert AsMap(a)[a[0].key] == a[0].quote && AsMap(b)[b[0].key] == b[0].quote;
      assert AsMap(a[1..]) == AsMap(a) - {a[0].key};
      assert AsMap(b[1..]) == AsMap(b) - {b[0].key};
      SameKeysSameRows(a[1..], b[1..]);
    }
  }

  // ----- Date order -----

  /** A stable sort by date, as `sorted` and `ORDER BY timestamp`. */
  function InsertByDate(bar: Bar, sorted: seq<Bar>): seq<Bar> {
    if sorted == [] || bar.timestamp <= sorted[0].timestamp then [bar] + sorted
    else [sorted[0]] + InsertByDate(bar, sorted[1..])
  }

  function SortByDate(bars: seq<Bar>): seq<Bar> {
    if bars == [] then [] else InsertByDate(bars[0], SortByDate(bars[1..]))
  }

  ghost predicate DateSorted(bars: seq<Bar>) {
    forall i, j :: 0 <= i < j < |bars| ==> bars[i].timestamp <= bars[j].timestamp
  }

  ghost predicate DatesDistinct(bars: seq<Bar>) {
    forall i, j :: 0 <= i < j < |bars| ==> bars[i].timestamp != bars[j].timestamp
  }

  ghost predicate StrictlyDateSorted(bars: seq<Bar>) {
    forall i, j :: 0 <= i < j < |bars| ==> bars[i].timestamp < bars[j].timestamp
  }

  lemma {:induction false} InsertPermutes(bar: Bar, sorted: seq<Bar>)
    ensures multiset(InsertByDate(bar, sorted)) == multiset(sorted) + multiset{bar}
    ensures forall b :: b in InsertByDate(bar, sorted) <==> b == bar || b in sorted
  {
    var now := InsertByDate(bar, sorted);
    if sorted != [] && sorted[0].timestamp < bar.timestamp {
      InsertPermutes(bar, sorted[1..]);
      assert sorted == [sorted[0]] + sorted[1..];
    }
    forall b ensures b in now <==> b == bar || b in sorted {
      assert b in now <==> b in multiset(now);
      assert b in sorted <==> b in multiset(sorted);
    }
  }

  lemma {:induction false} InsertKeepsOrder(bar: Bar, sorted: seq<Bar>)
    requires DateSorted(sorted)
    ensures DateSorted(InsertByDate(bar, sorted))
    ensures StrictlyDateSorted(sorted) && (forall b :: b in sorted ==> b.timestamp != bar.timestamp) ==>
              StrictlyDateSorted(InsertByDate(bar, sorted))
  {
    if sorted != [] && sorted[0].timestamp < bar.timestamp {
      InsertKeepsOrder(bar, sorted[1..]);
      InsertPermutes(bar, sorted[1..]);
      var rest := InsertByDate(bar, sorted[1..]);
      forall j | 0 <= j < |rest| ensures rest[j] == bar || rest[j] in sorted[1..] {
        assert rest[j] in rest;
      }
    }
  }

  lemma {:induction false} SortByDateSorts(bars: seq<Bar>)
    ensures DateSorted(SortByDate(bars))
    ensures multiset(SortByDate(bars)) == multiset(bars)
  {
    if bars != [] {
      SortByDateSorts(bars[1..]);
      InsertKeepsOrder(bars[0], SortByDate(bars[1..]));
      InsertPermutes(bars[0], SortByDate(bars[1..]));
      assert bars == [bars[0]] + bars[1..];
    }
  }

  lemma SortedHas(bars: seq<Bar>, bar: Bar)
    ensures bar in SortByDate(bars) <==> bar in bars
  {
    SortByDateSorts(bars);
    assert bar in SortByDate(bars) <==> bar in multiset(SortByDate(bars));
    assert bar in bars <==> bar in multiset(bars);
  }

  lemma {:induction false} SortOfDistinctDates(bars: seq<Bar>)
    requires DatesDistinct(bars)
    ensures StrictlyDateSorted(SortByDate(bars))
  {
    if bars != [] {
      var rest := SortByDate(bars[1..]);
      SortOfDistinctDates(bars[1..]);
      forall b | b in rest ensures b.timestamp != bars[0].timestamp {
        SortedHas(bars[1..], b);
      }
      InsertKeepsOrder(bars[0], rest);
    }
  }

  function Selected(rows: seq<BarRow>, instrumentId: int): seq<Bar> {
    if rows == [] then []
    else if rows[0].key.instrumentId == instrumentId then [ToBar(rows[0])] + Selected(rows[1..], instrumentId)
    else Selected(rows[1..], instrumentId)
  }

  function ListBars(rows: seq<BarRow>, instrumentId: int): seq<Bar> {
    SortByDate(Selected(rows, instrumentId))
  }

  lemma {:induction false} SelectedHas(rows: seq<BarRow>, instrumentId: int, bar: Bar)
    ensures bar in Selected(rows, instrumentId)
            <==> exists i :: 0 <= i < |rows| && rows[i].key.instrumentId == instrumentId && ToBar(rows[i]) == bar
  {
    if rows != [] {
      SelectedHas(rows[1..], instrumentId, bar);
      if i :| 0 <= i < |rows| && rows[i].key.instrumentId == instrumentId && ToBar(rows[i]) == bar {
        assert i == 0 || rows[i] == rows[1..][i - 1];
      }
      if bar in Selected(rows[1..], instrumentId) {
        var i :| 0 <= i < |rows[1..]| && rows[1..][i].key.instrumentId == instrumentId && ToBar(rows[1..][i]) == bar;
        assert rows[i + 1] == rows[1..][i];
      }
    }
  }

  lemma ListHas(rows: seq<BarRow>, instrumentId: int, bar: Bar)
    ensures bar in ListBars(rows, instrumentId)
            <==> exists i :: 0 <= i < |rows| && rows[i].key.instrumentId == instrumentId && ToBar(rows[i]) == bar
  {
    SelectedHas(rows, instrumentId, bar);
    SortedHas(Selected(rows, instrumentId), bar);
  }

  /** All bars of the instrument come from one source with one adjustment. */
  ghost predicate SingleFeed(rows: seq<BarRow>, instrumentId: int) {
    forall i, j | 0 <= i < j < |rows| && rows[i].key.instrumentId == instrumentId == rows[j].key.instrumentId ::
      rows[i].key.source == rows[j].key.source && rows[i].key.adjusted == rows[j].key.adjusted
  }

  lemma {:induction false} SelectedDatesDistinct(rows: seq<BarRow>, instrumentId: int)
    requires KeysUnique(rows) && SingleFeed(rows, instrumentId)
    ensures DatesDistinct(Selected(rows, instrumentId))
  {
    if rows != [] {
      var rest := Selected(rows[1..], instrumentId);
      SelectedDatesDistinct(rows[1..], instrumentId);
      forall j | 0 <= j < |rest| && rows[0].key.instrumentId == instrumentId
        ensures rest[j].timestamp != rows[0].key.timestamp
      {
        SelectedHas(rows[1..], instrumentId, rest[j]);
        var i :| 0 <= i < |rows[1..]| && rows[1..][i].key.instrumentId == instrumentId
            && ToBar(rows[1..][i]) == rest[j];
        assert rows[i + 1] == rows[1..][i];
        AsMapKeys(rows[1..], rows[1..][i].key);
      }
    }
  }

  /** A history is in date order and holds exactly the instrument's bars; with one source
      and one adjustment no two bars share a date. */
  lemma ListBarsInDateOrder(rows: seq<BarRow>, instrumentId: int)
    ensures DateSorted(ListBars(rows, instrumentId))
    ensures forall bar :: bar in ListBars(rows, instrumentId)
              <==> exists i :: 0 <= i < |rows| && rows[i].key.instrumentId == instrumentId && ToBar(rows[i]) == bar
    ensures KeysUnique(rows) && SingleFeed(rows, instrumentId) ==> StrictlyDateSorted(ListBars(rows, instrumentId))
  {
    SortByDateSorts(Selected(rows, instrumentId));
    forall bar { ListHas(rows, instrumentId, bar); }
    if KeysUnique(rows) && SingleFeed(rows, instrumentId) {
      SelectedDatesDistinct(rows, instrumentId);
      SortOfDistinctDates(Selected(rows, instrumentId));
    }
  }

  /** Storing a bar never makes an instrument's newest date earlier, nor its history empty. */
  lemma NewestDateNeverFalls(rows: seq<BarRow>, stored: Bar, instrumentId: int)
    requires KeysUnique(rows) && ListBars(rows, instrumentId) != []
    ensures var now, before := ListBars(Upsert(rows, stored), instrumentId), ListBars(rows, instrumentId);
            now != [] && before[|before| - 1].timestamp <= now[|now| - 1].timestamp
  {
    var now, before := ListBars(Upsert(rows, stored), instrumentId), ListBars(rows, instrumentId);
    var newest := before[|before| - 1];
    ListHas(rows, instrumentId, newest);
    var i :| 0 <= i < |rows| && rows[i].key.instrumentId == instrumentId && ToBar(rows[i]) == newest;
    UpsertOverrides(rows, stored);
    var kept := ToBar(Upsert(rows, stored)[i]);
    ListHas(Upsert(rows, stored), instrumentId, kept);
    assert kept in now;
    SortByDateSorts(Selected(Upsert(rows, stored), instrumentId));
    var j :| 0 <= j < |now| && now[j] == kept;
  }

  // ----- The repository and the batch check -----

  class MarketDataRepository {
    var rows: seq<BarRow>

    constructor (rows: seq<BarRow>)
      ensures this.rows == rows
    {
      this.rows := rows;
    }

    method UpsertDailyBar(bar: Bar)
      modifies this
      ensures rows == Upsert(old(rows), bar)
    {
      var i := 0;
      while i < |rows| && rows[i].key != KeyOf(bar)
        invariant 0 <= i <= |rows|
        invariant rows == old(rows)
        invariant rows[..i] + Upsert(rows[i..], bar) == Upsert(rows, bar)
      {
        assert rows[i..][0] == rows[i] && rows[i..][1..] == rows[i + 1..];
        assert rows[..i] + [rows[i]] == rows[..i + 1];
        i := i + 1;
      }
      if i < |rows| {
        assert rows[i..][0] == rows[i] && rows[i..][1..] == rows[i + 1..];
        rows := rows[i := rows[i].(quote := QuoteOf(bar))];
      } else {
        rows := rows + [BarRow(KeyOf(bar), QuoteOf(bar))];
      }
    }
  }

  function IdentityOf(b: Bar): (int, int) {
    (b.instrumentId, b.timestamp)
  }

  ghost predicate RepeatsBy(bars: seq<Bar>, k: int) {
    0 <= k < |bars| && exists i :: 0 <= i < k && IdentityOf(bars[i]) == IdentityOf(bars[k])
  }

  ghost predicate IdentitiesDistinct(bars: seq<Bar>) {
    forall i, j :: 0 <= i < j < |bars| ==> IdentityOf(bars[i]) != IdentityOf(bars[j])
  }

  lemma {:induction false} InsertKeepsDistinct(bar: Bar, sorted: seq<Bar>)
    requires IdentitiesDistinct(sorted) && forall b :: b in sorted ==> IdentityOf(b) != IdentityOf(bar)
    ensures IdentitiesDistinct(InsertByDate(bar, sorted))
  {
    if sorted != [] && sorted[0].timestamp < bar.timestamp {
      InsertKeepsDistinct(bar, sorted[1..]);
      InsertPermutes(bar, sorted[1..]);
      var rest := InsertByDate(bar, sorted[1..]);
      forall j | 0 <= j < |rest| ensures IdentityOf(rest[j]) != IdentityOf(sorted[0]) {
        assert rest[j] in rest;
        if rest[j] != bar {
          var i :| 0 <= i < |sorted[1..]| && sorted[1..][i] == rest[j];
          assert sorted[i + 1] == rest[j];
        }
      }
    }
  }

  lemma {:induction false} SortKeepsDistinct(bars: seq<Bar>)
    requires IdentitiesDistinct(bars)
    ensures IdentitiesDistinct(SortByDate(bars))
  {
    if bars != [] {
      SortKeepsDistinct(bars[1..]);
      forall b | b in SortByDate(bars[1..]) ensures IdentityOf(b) != IdentityOf(bars[0]) {
        SortedHas(bars[1..], b);
        var i :| 0 <= i < |bars[1..]| && bars[1..][i] == b;
        assert bars[i + 1] == b;
      }
      InsertKeepsDistinct(bars[0], SortByDate(bars[1..]));
    }
  }

  /** A stored batch without repeats can be read back bar by bar. */
  lemma {:induction false} StoredBatchReadsBack(rows: seq<BarRow>, batch: seq<Bar>, i: nat)
    requires KeysUnique(rows) && IdentitiesDistinct(batch) && i < |batch|
    ensures KeyOf(batch[i]) in AsMap(UpsertAll(rows, batch))
    ensures AsMap(UpsertAll(rows, batch))[KeyOf(batch[i])] == QuoteOf(batch[i])
    decreases |batch|
  {
    UpsertOverrides(rows, batch[0]);
    if i == 0 {
      UpsertAllOverrides(rows, batch);
      OverriddenAt(AsMap(rows)[KeyOf(batch[0]) := QuoteOf(batch[0])], batch[1..], KeyOf(batch[0]));
    } else {
      StoredBatchReadsBack(Upsert(rows, batch[0]), batch[1..], i - 1);
    }
  }

  /** Accepts exactly the batches without a repeated (instrument, date), and hands them back
      in date order; otherwise names the first bar that repeats an earlier one. */
  method ValidateBars(bars: seq<Bar>) returns (r: Result<seq<Bar>, Bar>)
    ensures r.Ok? <==> forall k :: 0 <= k < |bars| ==> !RepeatsBy(bars, k)
    ensures r.Ok? ==> r.value == SortByDate(bars) && DateSorted(r.value) && multiset(r.value) == multiset(bars)
    ensures r.Err? ==>
              exists k :: RepeatsBy(bars, k) && r.error == bars[k] && forall j :: 0 <= j < k ==> !RepeatsBy(bars, j)
  {
    var seen: set<(int, int)> := {};
    for k := 0 to |bars|
      invariant forall x :: x in seen <==> exists i :: 0 <= i < k && IdentityOf(bars[i]) == x
      invariant forall j :: 0 <= j < k ==> !RepeatsBy(bars, j)
    {
      if IdentityOf(bars[k]) in seen {
        assert RepeatsBy(bars, k);
        return Err(bars[k]);
      }
      seen := seen + {IdentityOf(bars[k])};
    }
    SortByDateSorts(bars);
    return Ok(SortByDate(bars));
  }
}
