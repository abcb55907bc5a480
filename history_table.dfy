/**
 * The historical-data table: a field filter, ten records per page,
 * previous/next page buttons, and the CSV export.
 *
 * The table's state is the selected filter and the current page; the data
 * is generated once and then only read. The export's timestamp column is
 * `toISOString()` of the record's time, which is a parameter `iso` here.
 */
module HistoryTable {
  import opened Seqs
  import opened Types
  import MockData

  const PageSize: nat := 10

  /** The filter value that shows every record. */
  const AllFields: string := "all"

  predicate HasFieldName(name: string, r: HistoricalRecord) { r.fieldName == name }

  /** `filteredData`: everything for "all", otherwise exactly the records
      of the named field, in their original order. */
  function FilterHistory(data: seq<HistoricalRecord>, filter: string): (r: seq<HistoricalRecord>)
    ensures filter == AllFields ==> r == data
    ensures filter != AllFields ==> forall i :: 0 <= i < |r| ==> r[i].fieldName == filter
    ensures filter != AllFields ==>
              forall i :: 0 <= i < |data| && data[i].fieldName == filter ==> data[i] in r
    ensures multiset(r) <= multiset(data)
  {
    if filter == AllFields then data else Filter(data, r => HasFieldName(filter, r))
  }

  /** Filtering keeps relative order: filtering a concatenation filters each
      part. */
  lemma FilterHistoryKeepsOrder(a: seq<HistoricalRecord>, b: seq<HistoricalRecord>, filter: string)
    ensures FilterHistory(a + b, filter) == FilterHistory(a, filter) + FilterHistory(b, filter)
  {
    if filter != AllFields {
      FilterConcat(a, b, r => HasFieldName(filter, r));
    }
  }

  /** Where page `page` starts: `(page - 1) * pageSize`. */
  function PageStart(page: int): int { (page - 1) * PageSize }

  /** `paginatedData`: the contiguous run of at most ten records starting
      at the page's first index; page 0 shows nothing. */
  function PageOf<T>(records: seq<T>, page: int): (r: seq<T>)
    ensures |r| <= PageSize
    ensures page >= 1 ==>
              r == records[Min(PageStart(page), |records|)..Min(PageStart(page) + PageSize, |records|)]
    ensures page == 0 ==> r == []
  {
    JsSlice(records, PageStart(page), PageStart(page) + PageSize)
  }

  /** `Math.ceil(n / pageSize)`. */
  function TotalPages(n: nat): (r: nat)
    ensures r * PageSize >= n
    ensures n > 0 ==> (r - 1) * PageSize < n
    ensures r == 0 <==> n == 0
  {
    (n + PageSize - 1) / PageSize
  }

  /** Pages 1 to `k`, one after another. */
  function PagesUpTo<T>(records: seq<T>, k: nat): seq<T>
  {
    if k == 0 then [] else PagesUpTo(records, k - 1) + PageOf(records, k)
  }

  /** The first `k` pages are the first `10 k` records. */
  lemma {:induction false} PagesUpToIsPrefix<T>(records: seq<T>, k: nat)
    ensures PagesUpTo(records, k) == records[..Min(k * PageSize, |records|)]
  {
    if k > 0 {
      PagesUpToIsPrefix(records, k - 1);
      var lo := Min((k - 1) * PageSize, |records|);
      var hi := Min(k * PageSize, |records|);
      assert records[..lo] + records[lo..hi] == records[..hi];
    }
  }

  /** Reading pages 1 to `totalPages` in turn shows every record once, in
      order. */
  lemma PagesCoverRecords<T>(records: seq<T>)
    ensures PagesUpTo(records, TotalPages(|records|)) == records
  {
    PagesUpToIsPrefix(records, TotalPages(|records|));
  }

  /** The "Showing a to b of n" label's two ends. */
  function ShowingFrom(page: int): int { PageStart(page) + 1 }

  function ShowingTo(page: int, n: nat): int { Min(page * PageSize, n) }

  /** On every page from 1 to `totalPages` the label counts exactly the
      records the page shows. */
  lemma ShowingMatchesPage<T>(records: seq<T>, page: int)
    requires 1 <= page <= TotalPages(|records|)
    ensures ShowingFrom(page) <= ShowingTo(page, |records|)
    ensures ShowingTo(page, |records|) - ShowingFrom(page) + 1 == |PageOf(records, page)|
  {
  }

  /** The "Prev" updater `p => Math.max(1, p - 1)`. */
  function PrevPage(p: int): (r: int)
    ensures r >= 1
    ensures p > 1 ==> r == p - 1
  {
    Max(1, p - 1)
  }

  /** The "Next" updater as written, `p => Math.min(totalPages, p + 1)`. */
  function NextPageAsWritten(p: int, total: nat): (r: int)
    ensures r <= total
    ensures p < total ==> r == p + 1
  {
    Min(total, p + 1)
  }

  /** With a filter that matches no record there are no pages, yet the
      first page is not the last, so "Next" is enabled and moves to page 0:
      the label then reads "Page 0 of 0" and "Showing -9 to 0". */
  lemma NextAsWrittenReachesPageZero()
    ensures var data := [MockData.HistoryRecord(0, 0, 0, MockData.HistoryDraw(0.0, 0.0, 0.0, 0.0, 0.0, 0.0))];
            var total := TotalPages(|FilterHistory(data, "South Field")|);
            total == 0 && 1 != total && NextPageAsWritten(1, total) == 0 &&
            ShowingFrom(NextPageAsWritten(1, total)) == -9
  {
    var draw := MockData.HistoryDraw(0.0, 0.0, 0.0, 0.0, 0.0, 0.0);
    var rec := MockData.HistoryRecord(0, 0, 0, draw);
    assert rec.fieldName == "North Field";
    assert FilterHistory([rec], "South Field") == [];
  }

  /** The "Next" updater with the clamp kept at page 1 or above. */
  function NextPage(p: int, total: nat): (r: int)
    ensures 1 <= r
    ensures r <= Max(1, total)
    ensures 1 <= p < total ==> r == p + 1
  {
    Max(1, Min(total, p + 1))
  }

  // ---------------------------------------------------------------------
  // CSV export

  const Headers: seq<string> := ["Timestamp", "Field", "Soil Moisture (%)", "Temperature (°C)",
                                 "Humidity (%)", "Water Level (%)", "Pump Status"]

  /** The seven cells of one record, in column order. */
  function CsvCells(rec: HistoricalRecord, iso: Timestamp -> string): (r: seq<string>)
    ensures |r| == |Headers|
  {
    [iso(rec.timestamp), rec.fieldName, IntToString(rec.soilMoisture), IntToString(rec.temperature),
     IntToString(rec.humidity), IntToString(rec.waterLevel), rec.pumpStatus]
  }

  /** One data line: the cells joined by commas, with no quoting. */
  function CsvRow(rec: HistoricalRecord, iso: Timestamp -> string): string
  {
    Join(CsvCells(rec, iso), ',')
  }

  /** The header line followed by one line per record, joined by newlines. */
  function CsvLines(records: seq<HistoricalRecord>, iso: Timestamp -> string): (r: seq<string>)
    ensures |r| == 1 + |records|
    ensures r[0] == Join(Headers, ',')
    ensures forall i :: 0 <= i < |records| ==> r[i + 1] == CsvRow(records[i], iso)
  {
    var header := Join(Headers, ',');
    var rows := seq(|records|, i requires 0 <= i < |records| => CsvRow(records[i], iso));
    var r := [header] + rows;
    assert forall i :: 0 <= i < |records| ==> r[i + 1] == rows[i];
    r
  }

  /** The exported file: it starts with the header line, and with no
      records it is that line alone. */
  function CsvText(records: seq<HistoricalRecord>, iso: Timestamp -> string): (r: string)
    ensures |Join(Headers, ',')| <= |r|
    ensures r[..|Join(Headers, ',')|] == Join(Headers, ',')
    ensures records == [] ==> r == Join(Headers, ',')
  {
    var lines := CsvLines(records, iso);
    JoinStartsWithFirst(lines, '\n');
    Join(lines, '\n')
  }

  /** A record none of whose text cells holds a newline. */
  predicate NoNewline(rec: HistoricalRecord, iso: Timestamp -> string)
  {
    '\n' !in iso(rec.timestamp) && '\n' !in rec.fieldName && '\n' !in rec.pumpStatus
  }

  /** A record none of whose text cells holds a comma. */
  predicate NoComma(rec: HistoricalRecord, iso: Timestamp -> string)
  {
    ',' !in iso(rec.timestamp) && ',' !in rec.fieldName && ',' !in rec.pumpStatus
  }

  lemma {:induction false} JoinKeepsOut(xs: seq<string>, sep: char, c: char)
    requires c != sep
    requires forall i :: 0 <= i < |xs| ==> c !in xs[i]
    ensures c !in Join(xs, sep)
  {
    if |xs| > 1 {
      JoinKeepsOut(xs[1..], sep, c);
    }
  }

  lemma HeaderLineHasNoNewline()
    ensures '\n' !in Join(Headers, ',')
  {
    var h := Headers;
    assert '\n' !in h[0] && '\n' !in h[1] && '\n' !in h[2] && '\n' !in h[3];
    assert '\n' !in h[4] && '\n' !in h[5] && '\n' !in h[6];
    JoinKeepsOut(h, ',', '\n');
  }

  lemma RowHasNoNewline(rec: HistoricalRecord, iso: Timestamp -> string)
    requires NoNewline(rec, iso)
    ensures '\n' !in CsvRow(rec, iso)
  {
    JoinKeepsOut(CsvCells(rec, iso), ',', '\n');
  }

  /** Splitting the export at newlines gives back the header line and one
      line per record, so the file has `1 + n` lines. */
  lemma CsvLinesRoundTrip(records: seq<HistoricalRecord>, iso: Timestamp -> string)
    requires forall i :: 0 <= i < |records| ==> NoNewline(records[i], iso)
    ensures Split(CsvText(records, iso), '\n') == CsvLines(records, iso)
    ensures |Split(CsvText(records, iso), '\n')| == 1 + |records|
  {
    var lines := CsvLines(records, iso);
    forall k | 0 <= k < |lines| ensures '\n' !in lines[k] {
      if k == 0 {
        HeaderLineHasNoNewline();
      } else {
        RowHasNoNewline(records[k - 1], iso);
      }
    }
    SplitJoin(lines, '\n');
  }

  /** Splitting a data line at commas gives back its seven cells when no
      text cell holds a comma. */
  lemma CsvRowRoundTrip(rec: HistoricalRecord, iso: Timestamp -> string)
    requires NoComma(rec, iso)
    ensures Split(CsvRow(rec, iso), ',') == CsvCells(rec, iso)
  {
    SplitJoin(CsvCells(rec, iso), ',');
  }

  /** Cells are not quoted, so a field name with a comma in it makes the
      line split into more than seven columns. */
  lemma CsvCommaInFieldName(rec: HistoricalRecord, iso: Timestamp -> string)
    requires ',' in rec.fieldName
    ensures |Split(CsvRow(rec, iso), ',')| > |Headers|
  {
    SplitJoinLonger(CsvCells(rec, iso), ',', 1);
  }

  /** The generated records name their field and pump state without commas
      or newlines, so their export splits back cleanly. */
  lemma GeneratedRecordsExportCleanly(today: int, day: nat, hour: nat, d: MockData.HistoryDraw,
                                      iso: Timestamp -> string)
    requires MockData.ValidDraw(d)
    requires ',' !in iso(MockData.HistoryRecord(today, day, hour, d).timestamp)
    ensures Split(CsvRow(MockData.HistoryRecord(today, day, hour, d), iso), ',') ==
            CsvCells(MockData.HistoryRecord(today, day, hour, d), iso)
  {
    var rec := MockData.HistoryRecord(today, day, hour, d);
    GeneratedTextHasNoComma(rec.fieldName, rec.pumpStatus);
    CsvRowRoundTrip(rec, iso);
  }

  lemma GeneratedTextHasNoComma(fieldName: string, pumpStatus: string)
    requires fieldName in MockData.FieldNames
    requires pumpStatus == "Active" || pumpStatus == "Inactive"
    ensures ',' !in fieldName && ',' !in pumpStatus
  {
    assert MockData.FieldNames == ["North Field", "South Field", "East Field"];
    if fieldName == "North Field" {
      assert ',' !in "North Field";
    } else if fieldName == "South Field" {
      assert ',' !in "South Field";
    } else {
      assert ',' !in "East Field";
    }
    assert ',' !in "Active" && ',' !in "Inactive";
  }

  // ---------------------------------------------------------------------
  // The table's own state

  class HistoryView {
    var data: seq<HistoricalRecord>
    var filter: string
    var page: int

    /** The page never goes negative. It can be 0: "Next" on a filter that
        matches nothing moves from page 1 to page 0. */
    predicate Valid()
      reads this
    {
      page >= 0
    }

    function Filtered(): seq<HistoricalRecord>
      reads this
    {
      FilterHistory(data, filter)
    }

    function Total(): nat
      reads this
    {
      TotalPages(|Filtered()|)
    }

    /** The rows on screen. */
    function Visible(): seq<HistoricalRecord>
      reads this
    {
      PageOf(Filtered(), page)
    }

    /** "Export CSV" writes every record the filter keeps, not only the page
        on screen: after the header line comes one line per filtered record. */
    function ExportText(iso: Timestamp -> string): (r: string)
      reads this
      ensures r == CsvText(Filtered(), iso)
      ensures r[..|Join(Headers, ',')|] == Join(Headers, ',')
      ensures (forall i :: 0 <= i < |Filtered()| ==> NoNewline(Filtered()[i], iso)) ==>
                |Split(r, '\n')| == 1 + |Filtered()|
    {
      var f := Filtered();
      if forall i :: 0 <= i < |f| ==> NoNewline(f[i], iso) then
        CsvLinesRoundTrip(f, iso);
        CsvText(f, iso)
      else
        CsvText(f, iso)
    }

    /** Filter "all", page 1. */
    constructor(data: seq<HistoricalRecord>)
      ensures this.data == data && filter == AllFields && page == 1
      ensures Valid()
      ensures Visible() == data[..Min(PageSize, |data|)]
    {
      this.data := data;
      filter := AllFields;
      page := 1;
    }

    /** Choosing a filter leaves the page where it was. */
    method SetFilter(f: string)
      modifies this
      ensures data == old(data) && filter == f && page == old(page)
    {
      filter := f;
    }

    /** "Prev": disabled on page 1, otherwise one page back, and from page
        0 up to page 1. */
    method Prev()
      requires Valid()
      modifies this
      ensures Valid() && page >= 1
      ensures data == old(data) && filter == old(filter)
      ensures old(page) == 1 ==> page == 1
      ensures old(page) > 1 ==> page == old(page) - 1
      ensures old(page) == 0 ==> page == 1
    {
      if page != 1 {
        page := PrevPage(page);
      }
    }

    /** "Next" as the table has it: disabled when the page equals the page
        count, otherwise one page on but never past the page count, so with
        no pages it moves from page 1 to page 0. */
    method Next()
      requires Valid()
      modifies this
      ensures Valid()
      ensures data == old(data) && filter == old(filter)
      ensures old(page) == Total() ==> page == old(page)
      ensures old(page) < Total() ==> page == old(page) + 1
      ensures old(page) > Total() ==> page == Total()
      ensures old(page) == 1 && Total() == 0 ==> page == 0 && Visible() == []
    {
      if page != Total() {
        page := NextPageAsWritten(page, Total());
      }
    }
  }
}
