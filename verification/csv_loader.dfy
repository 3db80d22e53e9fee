/** The local price-file loader: every readable file of a ticker's timeframe directory,
    combined, sorted by date, rid of duplicate rows, cut to the requested dates and
    checked for size, with a summary of the range it covers. The directory listing and
    the parsing of each file are inputs; dates are day numbers. */
module CsvLoader {
  import opened Wrappers
  import opened Text
  import opened Seqs

  /** One line of a price file: a date and the five values, in the file's column order. */
  datatype Row = Row(date: int, open: real, high: real, low: real, close: real, volume: real)

  /** A file of the directory: one that could not be read, or its rows. */
  datatype CsvFile = Unreadable | Parsed(rows: seq<Row>)

  /** The ticker's directory as found: whether it exists, and its price files. */
  datatype Directory = Directory(exists_: bool, files: seq<CsvFile>)

  datatype LoadError =
    | UnsupportedTimeframe  // 'Unsupported timeframe: …'
    | DirectoryMissing      // 'CSV directory not found: …'
    | NoCsvFiles            // 'No CSV files found in …'
    | NoneReadable          // 'Could not read any CSV files from …'
    | NoDataInRange         // 'No data found for … in the specified date range'
    | TooFewRows(count: nat) // 'Insufficient data for … Need at least 30 data points, got …'

  /** The summary returned with the rows. */
  datatype RangeInfo = RangeInfo(
    requestedStart: int, requestedEnd: int, actualStart: int, actualEnd: int, dataPoints: nat, source: string)

  const Timeframes: seq<string> := ["1m", "5m", "15m", "30m", "1h", "4h", "1d"]

  const MinRows := 30

  /** The rows of the readable files, file after file. */
  function Combined(files: seq<CsvFile>): seq<Row> {
    if |files| == 0 then []
    else
      match files[0]
      case Unreadable => Combined(files[1..])
      case Parsed(rows) => rows + Combined(files[1..])
  }

  /** `row` is a row of one of the readable files. */
  predicate FromFiles(files: seq<CsvFile>, row: Row) {
    exists f :: 0 <= f < |files| && files[f].Parsed? && row in files[f].rows
  }

  /** Every row of every readable file is in the combination. */
  lemma {:induction false} CombinedHasEveryRow(files: seq<CsvFile>, f: nat, row: Row)
    requires f < |files| && files[f].Parsed? && row in files[f].rows
    ensures row in Combined(files)
    decreases f
  {
    if f > 0 {
      CombinedHasEveryRow(files[1..], f - 1, row);
    }
  }

  /** The combination holds nothing but rows of the readable files. */
  lemma {:induction false} CombinedRowsFromFiles(files: seq<CsvFile>, row: Row)
    requires row in Combined(files)
    ensures FromFiles(files, row)
    decreases |files|
  {
    if files[0].Parsed? && row in files[0].rows {
      assert files[0].Parsed? && row in files[0].rows;
    } else {
      CombinedRowsFromFiles(files[1..], row);
      var f :| 0 <= f < |files[1..]| && files[1..][f].Parsed? && row in files[1..][f].rows;
      assert files[f + 1] == files[1..][f];
    }
  }

  predicate HasReadable(files: seq<CsvFile>) {
    exists f :: 0 <= f < |files| && files[f].Parsed?
  }

  predicate SortedByDate(s: seq<Row>) {
    forall i, j :: 0 <= i < j < |s| ==> s[i].date <= s[j].date
  }

  /** Puts `row` after the rows dated no later than it. */
  function InsertByDate(s: seq<Row>, row: Row): (r: seq<Row>)
    ensures |r| == |s| + 1
    ensures multiset(r) == multiset(s) + multiset{row}
  {
    if |s| == 0 then [row]
    else if row.date < s[0].date then [row] + s
    else
      assert s == [s[0]] + s[1..];
      [s[0]] + InsertByDate(s[1..], row)
  }

  lemma InsertByDateHead(s: seq<Row>, row: Row)
    ensures InsertByDate(s, row)[0] == row || (|s| > 0 && InsertByDate(s, row)[0] == s[0])
  {
  }

  /** Insertion keeps the rows in date order. */
  lemma {:induction false} InsertByDateSorted(s: seq<Row>, row: Row)
    requires SortedByDate(s)
    ensures SortedByDate(InsertByDate(s, row))
    decreases |s|
  {
    if |s| > 0 && row.date >= s[0].date {
      var rest := InsertByDate(s[1..], row);
      InsertByDateSorted(s[1..], row);
      InsertByDateHead(s[1..], row);
      var r := [s[0]] + rest;
      forall i, j | 0 <= i < j < |r|
        ensures r[i].date <= r[j].date
      {
        if i == 0 {
          assert rest[0].date <= r[j].date;
        }
      }
    }
  }

  /** `sort_index()`: the same rows in date order. Rows of equal date keep their
      relative order here. */
  function SortByDate(s: seq<Row>): (r: seq<Row>)
    ensures SortedByDate(r)
    ensures multiset(r) == multiset(s)
  {
    if |s| == 0 then []
    else
      assert s == [s[0]] + s[1..];
      InsertByDateSorted(SortByDate(s[1..]), s[0]);
      InsertByDate(SortByDate(s[1..]), s[0])
  }

  /** The values a row holds besides its date. */
  datatype Values = Values(open: real, high: real, low: real, close: real, volume: real)

  function ValuesOf(row: Row): Values {
    Values(row.open, row.high, row.low, row.close, row.volume)
  }

  function KeysOf<K>(s: seq<Row>, key: Row -> K): set<K> {
    set k | 0 <= k < |s| :: key(s[k])
  }

  lemma KeysOfSnoc<K>(s: seq<Row>, x: Row, key: Row -> K)
    ensures KeysOf(s + [x], key) == KeysOf(s, key) + {key(x)}
  {
    var t := s + [x];
    assert forall k :: 0 <= k < |s| ==> t[k] == s[k];
    assert key(x) == key(t[|s|]);
  }

  /** `drop_duplicates()` over the compared part `key` of each row: the first row of
      each key, in order. */
  function DedupBy<K(==)>(s: seq<Row>, key: Row -> K): (r: seq<Row>)
    ensures |r| <= |s|
    ensures forall k :: 0 <= k < |r| ==> r[k] in s
    ensures KeysOf(r, key) == KeysOf(s, key)
    ensures forall i, j :: 0 <= i < j < |r| ==> key(r[i]) != key(r[j])
  {
    if |s| == 0 then []
    else
      var init := s[..|s| - 1];
      var last := s[|s| - 1];
      var r := DedupBy(init, key);
      assert s == init + [last];
      KeysOfSnoc(init, last, key);
      if key(last) in KeysOf(r, key) then r
      else
        KeysOfSnoc(r, last, key);
        r + [last]
  }

  /** Dropping rows keeps date order. */
  lemma {:induction false} DedupBySorted<K>(s: seq<Row>, key: Row -> K)
    requires SortedByDate(s)
    ensures SortedByDate(DedupBy(s, key))
    decreases |s|
  {
    if |s| > 0 {
      var init := s[..|s| - 1];
      var last := s[|s| - 1];
      DedupBySorted(init, key);
      var r := DedupBy(init, key);
      forall k | 0 <= k < |r|
        ensures r[k].date <= last.date
      {
        var j :| 0 <= j < |init| && init[j] == r[k];
      }
    }
  }

  function InRange(start: int, end: int): Row -> bool {
    (row: Row) => start <= row.date <= end
  }

  /** Selection keeps date order. */
  lemma {:induction false} FilterSorted(s: seq<Row>, p: Row -> bool)
    requires SortedByDate(s)
    ensures SortedByDate(Filter(s, p))
    decreases |s|
  {
    if |s| > 0 {
      FilterSorted(s[1..], p);
      var rest := Filter(s[1..], p);
      if p(s[0]) {
        var r := [s[0]] + rest;
        forall i, j | 0 <= i < j < |r|
          ensures r[i].date <= r[j].date
        {
          if i == 0 {
            var m :| 0 <= m < |s[1..]| && s[1..][m] == r[j];
          }
        }
      }
    }
  }

  /** The rows of the requested dates after sorting and dropping duplicates compared
      with `key`. */
  function Prepared<K(==)>(files: seq<CsvFile>, start: int, end: int, key: Row -> K): (r: seq<Row>)
    ensures SortedByDate(r)
    ensures forall k :: 0 <= k < |r| ==> start <= r[k].date <= end && r[k] in Combined(files)
  {
    var sorted := SortByDate(Combined(files));
    var unique := DedupBy(sorted, key);
    DedupBySorted(sorted, key);
    FilterSorted(unique, InRange(start, end));
    forall k | 0 <= k < |unique|
      ensures unique[k] in Combined(files)
    {
      assert unique[k] in multiset(sorted);
    }
    Filter(unique, InRange(start, end))
  }

  /** `load_csv_data` as written: duplicates are rows with equal values, whatever their
      dates. */
  function LoadAsWritten(start: int, end: int, timeframe: string, dir: Directory): Result<(seq<Row>, RangeInfo), LoadError> {
    Load(start, end, timeframe, dir, ValuesOf)
  }

  /** A row compared as a whole, date included. */
  function WholeRow(row: Row): Row {
    row
  }

  /** `load_csv_data` with duplicates compared over the whole row, date included. */
  function LoadCsv(start: int, end: int, timeframe: string, dir: Directory): Result<(seq<Row>, RangeInfo), LoadError> {
    Load(start, end, timeframe, dir, WholeRow)
  }

  /** The loader over a choice of what makes two rows duplicates: the checks in order,
      then the rows and their range. */
  function Load<K(==)>(start: int, end: int, timeframe: string, dir: Directory, key: Row -> K)
    : (r: Result<(seq<Row>, RangeInfo), LoadError>)
    ensures r == Err(UnsupportedTimeframe) <==> timeframe !in Timeframes
    ensures r == Err(NoneReadable) <==> timeframe in Timeframes && dir.exists_ && |dir.files| > 0 && !HasReadable(dir.files)
    ensures r.Ok? ==> r.value.0 == Prepared(dir.files, start, end, key) && |r.value.0| >= MinRows
    ensures r.Ok? ==> r.value.1 == Summary(r.value.0, start, end)
    ensures r.Err? && r.error.TooFewRows? ==> 0 < r.error.count < MinRows
  {
    if timeframe !in Timeframes then Err(UnsupportedTimeframe)
    else if !dir.exists_ then Err(DirectoryMissing)
    else if |dir.files| == 0 then Err(NoCsvFiles)
    else if !HasReadable(dir.files) then Err(NoneReadable)
    else
      var rows := Prepared(dir.files, start, end, key);
      if |rows| == 0 then Err(NoDataInRange)
      else if |rows| < MinRows then Err(TooFewRows(|rows|))
      else Ok((rows, Summary(rows, start, end)))
  }

  /** The range information reported with the rows. */
  function Summary(rows: seq<Row>, start: int, end: int): RangeInfo
    requires |rows| > 0
  {
    RangeInfo(start, end, rows[0].date, rows[|rows| - 1].date, |rows|, "csv_local")
  }

  /** A successful load returns at least 30 rows in date order, all within the
      requested dates and all from readable files. */
  lemma LoadResult<K>(start: int, end: int, timeframe: string, dir: Directory, key: Row -> K)
    requires Load(start, end, timeframe, dir, key).Ok?
    ensures var rows := Load(start, end, timeframe, dir, key).value.0;
            && |rows| >= MinRows && SortedByDate(rows)
            && (forall k :: 0 <= k < |rows| ==> start <= rows[k].date <= end && FromFiles(dir.files, rows[k]))
  {
    var rows := Load(start, end, timeframe, dir, key).value.0;
    assert rows == Prepared(dir.files, start, end, key);
    forall k | 0 <= k < |rows|
      ensures FromFiles(dir.files, rows[k])
    {
      CombinedRowsFromFiles(dir.files, rows[k]);
    }
  }

  /** Nothing of the requested dates is lost: every row of a readable file dated within
      the range is returned. */
  lemma LoadKeepsEveryRow(start: int, end: int, timeframe: string, dir: Directory, f: nat, row: Row)
    requires LoadCsv(start, end, timeframe, dir).Ok?
    requires f < |dir.files| && dir.files[f].Parsed? && row in dir.files[f].rows
    requires start <= row.date <= end
    ensures row in LoadCsv(start, end, timeframe, dir).value.0
  {
    var id := WholeRow;
    var combined := Combined(dir.files);
    CombinedHasEveryRow(dir.files, f, row);
    var sorted := SortByDate(combined);
    assert row in multiset(sorted);
    var k :| 0 <= k < |sorted| && sorted[k] == row;
    assert id(row) in KeysOf(sorted, id);
    var unique := DedupBy(sorted, id);
    assert row in KeysOf(unique, id);
    var j :| 0 <= j < |unique| && id(unique[j]) == row;
    assert InRange(start, end)(unique[j]);
  }

  /** No row is returned twice. */
  lemma LoadRowsDistinct(start: int, end: int, timeframe: string, dir: Directory)
    requires LoadCsv(start, end, timeframe, dir).Ok?
    ensures Distinct(LoadCsv(start, end, timeframe, dir).value.0)
  {
    var id := WholeRow;
    var unique := DedupBy(SortByDate(Combined(dir.files)), id);
    FilterKeepsDistinct(unique, InRange(start, end));
  }

  predicate Distinct(s: seq<Row>) {
    forall i, j :: 0 <= i < j < |s| ==> s[i] != s[j]
  }

  /** Selection keeps distinct rows distinct. */
  lemma {:induction false} FilterKeepsDistinct(s: seq<Row>, p: Row -> bool)
    requires Distinct(s)
    ensures Distinct(Filter(s, p))
    decreases |s|
  {
    if |s| > 0 {
      FilterKeepsDistinct(s[1..], p);
      var rest := Filter(s[1..], p);
      forall k | 0 <= k < |rest|
        ensures rest[k] != s[0]
      {
        var m :| 0 <= m < |s[1..]| && s[1..][m] == rest[k];
        assert s[m + 1] == rest[k];
      }
      if p(s[0]) {
        var r := [s[0]] + rest;
        forall i, j | 0 <= i < j < |r|
          ensures r[i] != r[j]
        {
          if i > 0 {
            assert r[i] == rest[i - 1] && r[j] == rest[j - 1];
          }
        }
      }
    }
  }

  /** Two bars of different dates with the same values: as written, the second is
      dropped as a duplicate of the first; compared over whole rows both are kept. */
  lemma EqualValuesDropped()
    ensures var a := Row(1, 1.0, 1.0, 1.0, 1.0, 0.0);
            var b := Row(2, 1.0, 1.0, 1.0, 1.0, 0.0);
            && DedupBy([a, b], ValuesOf) == [a]
            && DedupBy([a, b], WholeRow) == [a, b]
  {
    var a := Row(1, 1.0, 1.0, 1.0, 1.0, 0.0);
    var b := Row(2, 1.0, 1.0, 1.0, 1.0, 0.0);
    assert [a, b][..1] == [a];
    assert [a][..0] == [];
    KeysOfSnoc([], a, ValuesOf);
    KeysOfSnoc([], a, WholeRow);
  }

  /** `ticker` is the upper-cased name of a listed sub-directory. */
  predicate IsTickerDirectory(entries: seq<(string, bool)>, ticker: string) {
    exists e :: 0 <= e < |entries| && entries[e].1 && Upper(entries[e].0) == ticker
  }

  /** `get_available_tickers`: the upper-cased names of the data directory's
      sub-directories, none when it does not exist. Each entry is a name and whether it
      is a directory. */
  function AvailableTickers(dataDirExists: bool, entries: seq<(string, bool)>): (r: seq<string>)
    ensures !dataDirExists ==> r == []
    ensures |r| <= |entries|
    ensures dataDirExists ==> forall k :: 0 <= k < |entries| && entries[k].1 ==> Upper(entries[k].0) in r
    ensures forall k :: 0 <= k < |r| ==> IsTickerDirectory(entries, r[k])
  {
    if !dataDirExists || |entries| == 0 then []
    else
      var rest := AvailableTickers(true, entries[1..]);
      assert forall k :: 0 <= k < |rest| ==> IsTickerDirectory(entries, rest[k]) by {
        forall k | 0 <= k < |rest|
          ensures IsTickerDirectory(entries, rest[k])
        {
          assert IsTickerDirectory(entries[1..], rest[k]);
          var e :| 0 <= e < |entries[1..]| && entries[1..][e].1 && Upper(entries[1..][e].0) == rest[k];
          assert entries[e + 1] == entries[1..][e];
        }
      }
      if entries[0].1 then [Upper(entries[0].0)] + rest else rest
  }

  /** `name` is listed as a sub-directory. */
  predicate IsSubdirectory(entries: seq<(string, bool)>, name: string) {
    exists e :: 0 <= e < |entries| && entries[e].1 && entries[e].0 == name
  }

  /** `get_available_timeframes`: the names of the ticker directory's sub-directories. */
  function AvailableTimeframes(tickerDirExists: bool, entries: seq<(string, bool)>): (r: seq<string>)
    ensures !tickerDirExists ==> r == []
    ensures tickerDirExists ==> forall k :: 0 <= k < |entries| && entries[k].1 ==> entries[k].0 in r
    ensures forall k :: 0 <= k < |r| ==> IsSubdirectory(entries, r[k])
  {
    if !tickerDirExists || |entries| == 0 then []
    else
      var rest := AvailableTimeframes(true, entries[1..]);
      assert forall k :: 0 <= k < |rest| ==> IsSubdirectory(entries, rest[k]) by {
        forall k | 0 <= k < |rest|
          ensures IsSubdirectory(entries, rest[k])
        {
          assert IsSubdirectory(entries[1..], rest[k]);
          var e :| 0 <= e < |entries[1..]| && entries[1..][e].1 && entries[1..][e].0 == rest[k];
          assert entries[e + 1] == entries[1..][e];
        }
      }
      if entries[0].1 then [entries[0].0] + rest else rest
  }
}
