/** `CSVReader`: the folds over a parsed CSV stream. The file and the parser are replaced by
    what the `data`, `end` and `error` events deliver: the rows in stream order, then either
    the end of the stream or an error, on which the returned promise rejects. Each reader
    keeps the source's per-callback state (`results`, `rowCount`, `headers`, `isFirstRow`,
    `errors`) as local variables of a loop over the rows. */
module CsvReader {
  import opened Common
  import opened Records

  /** The events of one read: the rows, then `error` (Some) or `end` (None). */
  datatype CsvStream = CsvStream(rows: seq<Row>, failure: Option<string>)

  /** `readFile`: every row, in stream order; an error event rejects. */
  method ReadFile(stream: CsvStream) returns (r: Result<seq<Row>, string>)
    ensures stream.failure.None? ==> r == Ok(stream.rows)
    ensures stream.failure.Some? ==> r == Err(stream.failure.value)
  {
    var results: seq<Row> := [];
    var rowCount := 0;
    while rowCount < |stream.rows|
      invariant rowCount <= |stream.rows|
      invariant results == stream.rows[..rowCount]
    {
      results := results + [stream.rows[rowCount]];
      rowCount := rowCount + 1;
    }
    assert results == stream.rows;
    if stream.failure.Some? {
      return Err(stream.failure.value);
    }
    return Ok(results);
  }

  /** `getHeaders`: the keys of the first row, or none for an empty file. */
  method GetHeaders(stream: CsvStream) returns (r: Result<seq<string>, string>)
    ensures stream.failure.None? && stream.rows == [] ==> r == Ok([])
    ensures stream.failure.None? && stream.rows != [] ==> r == Ok(Keys(stream.rows[0]))
    ensures stream.failure.Some? ==> r == Err(stream.failure.value)
  {
    var headers: seq<string> := [];
    var isFirstRow := true;
    var i := 0;
    while i < |stream.rows|
      invariant i <= |stream.rows|
      invariant isFirstRow <==> i == 0
      invariant headers == if i == 0 then [] else Keys(stream.rows[0])
    {
      if isFirstRow {
        headers := headers + Keys(stream.rows[i]);
        isFirstRow := false;
      }
      i := i + 1;
    }
    if stream.failure.Some? {
      return Err(stream.failure.value);
    }
    return Ok(headers);
  }

  /** `previewFile`: the first `min(n, maxRows)` rows, in order; rows past the limit are read
      and ignored. A limit of zero or less gives no rows. */
  method PreviewFile(stream: CsvStream, maxRows: int) returns (r: Result<seq<Row>, string>)
    ensures stream.failure.None? ==> r.Ok? && r.value == stream.rows[..Min(|stream.rows|, Max(maxRows, 0))]
    ensures stream.failure.None? ==> |r.value| == Min(|stream.rows|, Max(maxRows, 0))
    ensures stream.failure.Some? ==> r == Err(stream.failure.value)
  {
    var results: seq<Row> := [];
    var rowCount := 0;
    var i := 0;
    while i < |stream.rows|
      invariant i <= |stream.rows|
      invariant rowCount == Min(i, Max(maxRows, 0))
      invariant results == stream.rows[..rowCount]
    {
      if rowCount < maxRows {
        results := results + [stream.rows[i]];
        rowCount := rowCount + 1;
      }
      i := i + 1;
    }
    if stream.failure.Some? {
      return Err(stream.failure.value);
    }
    return Ok(results);
  }

  // ---------------------------------------------------------------------------
  // validateFile

  /** The two complaints `validateFile` can record. */
  datatype ValidationError = DuplicateColumns | InconsistentRow(rowNumber: nat)

  /** The text the source pushes for each complaint. */
  function Message(e: ValidationError): string {
    match e
    case DuplicateColumns => "Duplicate column names found"
    case InconsistentRow(n) => "Row " + NatToString(n) + " has inconsistent number of columns"
  }

  datatype Validation = Validation(isValid: bool, rowCount: nat, headers: seq<string>, errors: seq<ValidationError>)

  /** The 1-based numbers of the rows whose key count differs from `width`, in row order. */
  function Inconsistent(rows: seq<Row>, width: nat): seq<nat>
    decreases |rows|
  {
    if rows == [] then []
    else
      Inconsistent(rows[..|rows| - 1], width) +
      (if |Keys(rows[|rows| - 1])| != width then [|rows|] else [])
  }

  /** A row number is listed exactly when that row's key count is off, and the list is
      strictly increasing, so each such row is listed once and in order. */
  lemma {:induction false} InconsistentSpec(rows: seq<Row>, width: nat)
    ensures forall k :: k in Inconsistent(rows, width) <==> 1 <= k <= |rows| && |Keys(rows[k - 1])| != width
    ensures forall i, j :: 0 <= i < j < |Inconsistent(rows, width)| ==>
      Inconsistent(rows, width)[i] < Inconsistent(rows, width)[j]
    decreases |rows|
  {
    if rows != [] {
      var init := rows[..|rows| - 1];
      var before := Inconsistent(init, width);
      InconsistentSpec(init, width);
      assert forall j :: 0 <= j < |init| ==> init[j] == rows[j];
      assert forall i :: 0 <= i < |before| ==> before[i] in before && before[i] <= |init|;
    }
  }

  function RowError(n: nat): ValidationError {
    InconsistentRow(n)
  }

  /** The complaint about duplicate header names, checked on the first row only. */
  function DuplicateErrors(rows: seq<Row>): seq<ValidationError> {
    if rows != [] && !Distinct(Keys(rows[0])) then [DuplicateColumns] else []
  }

  /** The headers after reading `rows`: the first row's keys. */
  function HeadersOf(rows: seq<Row>): seq<string> {
    if rows == [] then [] else Keys(rows[0])
  }

  /** The complaints after reading `rows`. */
  function ErrorsOf(rows: seq<Row>): seq<ValidationError> {
    DuplicateErrors(rows) + Map(Inconsistent(rows, |HeadersOf(rows)|), RowError)
  }

  /** What `validateFile` resolves with after reading `rows`. */
  function Validated(rows: seq<Row>): Validation {
    Validation(ErrorsOf(rows) == [], |rows|, HeadersOf(rows), ErrorsOf(rows))
  }

  /** One more row: the duplicate complaint when it is the first row and its keys repeat, then
      the width complaint when its key count differs from the headers. */
  lemma ErrorsSnoc(rows: seq<Row>, row: Row)
    ensures ErrorsOf(rows + [row]) == ErrorsOf(rows) +
      (if rows == [] && !Distinct(Keys(row)) then [DuplicateColumns] else []) +
      (if |Keys(row)| != |HeadersOf(rows + [row])| then [InconsistentRow(|rows| + 1)] else [])
  {
    var all := rows + [row];
    assert all[..|all| - 1] == rows;
    if rows == [] {
      assert HeadersOf(all) == Keys(row);
      assert Inconsistent(all, |Keys(row)|) == Inconsistent([], |Keys(row)|) == [];
    } else {
      assert all[0] == rows[0];
      assert HeadersOf(all) == HeadersOf(rows);
      MapSnoc<nat, ValidationError>(Inconsistent(rows, |HeadersOf(rows)|), |all|, RowError);
    }
  }

  /** `ErrorsSnoc` on a prefix of the rows. */
  lemma ErrorsNext(rows: seq<Row>, n: nat)
    requires n < |rows|
    ensures HeadersOf(rows[..n + 1]) == if n == 0 then Keys(rows[n]) else HeadersOf(rows[..n])
    ensures ErrorsOf(rows[..n + 1]) == ErrorsOf(rows[..n]) +
      (if n == 0 && !Distinct(Keys(rows[n])) then [DuplicateColumns] else []) +
      (if |Keys(rows[n])| != |HeadersOf(rows[..n + 1])| then [InconsistentRow(n + 1)] else [])
  {
    assert rows[..n + 1] == rows[..n] + [rows[n]];
    ErrorsSnoc(rows[..n], rows[n]);
  }

  /** The `data` callback of `validateFile` on row number `rowCount + 1`: the first row sets
      the headers and complains about repeated keys; every row complains when its key count
      differs from the headers. */
  method OnValidateRow(data: Row, rowCount: nat, headers: seq<string>, isFirstRow: bool)
    returns (newHeaders: seq<string>, complaints: seq<ValidationError>)
    ensures newHeaders == if isFirstRow then Keys(data) else headers
    ensures complaints == (if isFirstRow && !Distinct(Keys(data)) then [DuplicateColumns] else []) +
      (if |Keys(data)| != |newHeaders| then [InconsistentRow(rowCount + 1)] else [])
  {
    newHeaders := headers;
    complaints := [];
    if isFirstRow {
      newHeaders := Keys(data);
      if !Distinct(newHeaders) {
        complaints := complaints + [DuplicateColumns];
      }
    }
    if |Keys(data)| != |newHeaders| {
      complaints := complaints + [InconsistentRow(rowCount + 1)];
    }
  }

  /** `validateFile`: the row callback runs on every row, then the end handler reports. */
  method ValidateFile(stream: CsvStream) returns (r: Result<Validation, string>)
    ensures stream.failure.None? ==> r == Ok(Validated(stream.rows))
    ensures stream.failure.Some? ==> r == Err(stream.failure.value)
  {
    var rows := stream.rows;
    var errors: seq<ValidationError> := [];
    var rowCount := 0;
    var headers: seq<string> := [];
    var isFirstRow := true;
    while rowCount < |rows|
      invariant rowCount <= |rows|
      invariant isFirstRow <==> rowCount == 0
      invariant headers == HeadersOf(rows[..rowCount])
      invariant errors == ErrorsOf(rows[..rowCount])
    {
      var data := rows[rowCount];
      ErrorsNext(rows, rowCount);
      var complaints;
      headers, complaints := OnValidateRow(data, rowCount, headers, isFirstRow);
      isFirstRow := false;
      rowCount := rowCount + 1;
      errors := errors + complaints;
    }
    assert rows[..rowCount] == rows;
    if stream.failure.Some? {
      return Err(stream.failure.value);
    }
    var isValid := errors == [];
    return Ok(Validation(isValid, rowCount, headers, errors));
  }

  /** What validation promises: the row count is the number of rows, the headers are the first
      row's keys, the duplicate complaint appears at most once and only first, there is one
      complaint per row of the wrong width, in row order, and the file is valid exactly when
      nothing was complained about. An empty file is valid with no rows and no headers. */
  lemma ValidatedSpec(rows: seq<Row>)
    ensures Validated(rows).rowCount == |rows|
    ensures Validated(rows).headers == if rows == [] then [] else Keys(rows[0])
    ensures Validated(rows).isValid <==> Validated(rows).errors == []
    ensures forall i :: 1 <= i < |Validated(rows).errors| ==> Validated(rows).errors[i] != DuplicateColumns
    ensures forall k: nat :: InconsistentRow(k) in Validated(rows).errors <==>
      1 <= k <= |rows| && |Keys(rows[k - 1])| != |Validated(rows).headers|
    ensures rows == [] ==> Validated(rows) == Validation(true, 0, [], [])
  {
    var v := Validated(rows);
    var dup := DuplicateErrors(rows);
    var nums := Inconsistent(rows, |v.headers|);
    var mapped := Map(nums, RowError);
    InconsistentSpec(rows, |v.headers|);
    assert v.errors == dup + mapped;
    forall k
      ensures InconsistentRow(k) in v.errors <==> k in nums
    {
      if InconsistentRow(k) in v.errors {
        var i :| 0 <= i < |v.errors| && v.errors[i] == InconsistentRow(k);
        assert i >= |dup|;
        assert mapped[i - |dup|] == InconsistentRow(nums[i - |dup|]);
      }
      if k in nums {
        var i :| 0 <= i < |nums| && nums[i] == k;
        assert v.errors[|dup| + i] == mapped[i];
      }
    }
    forall i | 1 <= i < |v.errors|
      ensures v.errors[i] != DuplicateColumns
    {
      assert i - |dup| >= 0;
      assert mapped[i - |dup|] == InconsistentRow(nums[i - |dup|]);
    }
  }

  /** The first row always has the width of the headers, so it is never complained about. */
  lemma FirstRowConsistent(rows: seq<Row>)
    requires rows != []
    ensures InconsistentRow(1) !in Validated(rows).errors
  {
    ValidatedSpec(rows);
  }

  /** The keys of a JavaScript object are distinct, so on well-formed rows the duplicate
      complaint never appears: `new Set(Object.keys(row))` cannot be smaller than the keys. */
  lemma DuplicateNeverOnObjects(rows: seq<Row>)
    requires forall i :: 0 <= i < |rows| ==> WellFormed(rows[i])
    ensures DuplicateColumns !in Validated(rows).errors
  {
    ValidatedSpec(rows);
    if rows != [] {
      assert WellFormed(rows[0]);
    }
    assert DuplicateErrors(rows) == [];
  }

  // ---------------------------------------------------------------------------
  // readFiles

  /** The position of the last "/" in `s`, or -1. */
  function LastSlash(s: string): (i: int)
    ensures -1 <= i < |s|
    ensures i >= 0 ==> s[i] == '/'
    ensures forall j :: i < j < |s| ==> s[j] != '/'
    ensures i >= 0 <==> '/' in s
    decreases |s|
  {
    if s == [] then -1
    else if s[|s| - 1] == '/' then |s| - 1
    else LastSlash(s[..|s| - 1])
  }

  /** `filePath.split("/").pop() || filePath`: the text after the last "/", or the whole
      path when that text is empty. */
  function FileName(path: string): (name: string)
    ensures name != [] || path == []
  {
    var tail := path[LastSlash(path) + 1..];
    if tail != [] then tail else path
  }

  /** The text after position `i`, when no "/" follows `i`, has no "/" and ends the path. */
  lemma SlashFreeSuffix(path: string, i: int)
    requires -1 <= i < |path|
    requires forall j :: i < j < |path| ==> path[j] != '/'
    ensures '/' !in path[i + 1..] && EndsWith(path, path[i + 1..])
  {
    var tail := path[i + 1..];
    forall k | 0 <= k < |tail|
      ensures tail[k] != '/'
    {
      assert tail[k] == path[i + 1 + k];
    }
  }

  /** Unless the path ends with "/", the name is its last segment: no "/" in it, and the path
      ends with it. */
  lemma FileNameSegment(path: string)
    requires path == [] || path[|path| - 1] != '/'
    ensures '/' !in FileName(path) && EndsWith(path, FileName(path))
  {
    var i := LastSlash(path);
    SlashFreeSuffix(path, i);
    if path != [] {
      assert path[i + 1..][|path| - i - 2] == path[|path| - 1];
    }
  }

  /** A path that ends with "/", or that has no "/" at all, is its own name. */
  lemma FileNameWhole(path: string)
    ensures path != [] && path[|path| - 1] == '/' ==> FileName(path) == path
    ensures '/' !in path ==> FileName(path) == path
  {
  }

  /** The dictionary `readFiles` builds from reading `paths` in order: a read keys its rows by
      the file name, a failed read keys `[]` by the full path, and a later key overwrites. */
  function Collected(paths: seq<string>, read: string -> Result<seq<Row>, string>): map<string, seq<Row>>
    decreases |paths|
  {
    if paths == [] then map[]
    else
      var p := paths[|paths| - 1];
      var m := Collected(paths[..|paths| - 1], read);
      if read(p).Ok? then m[FileName(p) := read(p).value] else m[p := []]
  }

  /** The key a path's read lands under. */
  function KeyOf(p: string, read: string -> Result<seq<Row>, string>): string {
    if read(p).Ok? then FileName(p) else p
  }

  /** `readFiles`: each path is read in turn and its outcome stored. */
  method ReadFiles(paths: seq<string>, read: string -> Result<seq<Row>, string>)
    returns (results: map<string, seq<Row>>)
    ensures results == Collected(paths, read)
  {
    results := map[];
    var i := 0;
    while i < |paths|
      invariant i <= |paths|
      invariant results == Collected(paths[..i], read)
    {
      var filePath := paths[i];
      assert paths[..i + 1][..i] == paths[..i];
      var outcome := read(filePath);
      match outcome {
        case Ok(rows) =>
          results := results[FileName(filePath) := rows];
        case Err(_) =>
          results := results[filePath := []];
      }
      i := i + 1;
    }
    assert paths[..i] == paths;
  }

  /** The keys the paths land under. */
  function PathKeys(paths: seq<string>, read: string -> Result<seq<Row>, string>): set<string> {
    set p | p in paths :: KeyOf(p, read)
  }

  /** Every path leaves its key behind and nothing else is a key; the last path's key holds
      what that path read. */
  lemma {:induction false} CollectedSpec(paths: seq<string>, read: string -> Result<seq<Row>, string>)
    ensures Collected(paths, read).Keys == PathKeys(paths, read)
    ensures paths != [] ==> var p := paths[|paths| - 1];
      Collected(paths, read)[KeyOf(p, read)] == (if read(p).Ok? then read(p).value else [])
    decreases |paths|
  {
    if paths != [] {
      var init := paths[..|paths| - 1];
      var p := paths[|paths| - 1];
      CollectedSpec(init, read);
      assert paths == init + [p];
      assert PathKeys(paths, read) == PathKeys(init, read) + {KeyOf(p, read)};
    }
  }

  /** Reading the same file name twice keeps the later read: two successful reads of paths with
      the same name leave the second's rows. */
  lemma LaterNameOverwrites(earlier: seq<string>, p: string, q: string, read: string -> Result<seq<Row>, string>)
    requires read(p).Ok? && read(q).Ok? && FileName(p) == FileName(q)
    ensures Collected(earlier + [p, q], read)[FileName(p)] == read(q).value
  {
    var paths := earlier + [p, q];
    assert paths[..|paths| - 1] == earlier + [p];
    assert (earlier + [p])[..|earlier + [p]| - 1] == earlier;
  }
}
