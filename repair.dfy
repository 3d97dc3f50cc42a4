/** The layer repair: two comma-separated layer files padded to the same number of rows and
    of columns, with "00" filling every missing cell. Files are line lists here. */
module Repair {
  import opened JavaMath
  import opened JavaString

  /** A repair step either yields a value or throws StringIndexOutOfBoundsException. */
  datatype Result<T> = Ok(value: T) | IndexOutOfBounds

  /** The fields of a layer line: spaces removed, then `split(",")`. */
  function Columns(line: string): seq<string> {
    Split(RemoveSpaces(line))
  }

  /** No field holds a comma or a space, and a line of two or more fields does not end in an
      empty one. */
  lemma ColumnsFacts(line: string)
    ensures var cols := Columns(line);
      && (forall j :: 0 <= j < |cols| ==> ',' !in cols[j] && ' ' !in cols[j])
      && (|cols| >= 2 ==> cols[|cols| - 1] != "")
  {
    RemoveSpacesFacts(line);
    SplitFacts(RemoveSpaces(line));
  }

  /** The running maximum `Math.max(acc, x)` over `xs`, from 0. */
  function MaxOf(xs: seq<int>): (m: int)
    ensures m >= 0
    ensures forall i :: 0 <= i < |xs| ==> xs[i] <= m
    ensures m == 0 || exists i :: 0 <= i < |xs| && m == xs[i]
  {
    if xs == [] then 0 else Max(MaxOf(xs[..|xs| - 1]), xs[|xs| - 1])
  }

  /** The field count of every line. */
  function Widths(lines: seq<string>): (ws: seq<int>)
    ensures |ws| == |lines|
  {
    seq(|lines|, i requires 0 <= i < |lines| => |Columns(lines[i])|)
  }

  /** The widest line of a layer, in fields; 0 for a layer without lines. */
  function MaxColumns(lines: seq<string>): (n: nat)
    ensures forall i :: 0 <= i < |lines| ==> |Columns(lines[i])| <= n
    ensures lines == [] ==> n == 0
    ensures lines != [] ==> exists i :: 0 <= i < |lines| && n == |Columns(lines[i])|
  {
    var ws := Widths(lines);
    var m := MaxOf(ws);
    assert forall i :: 0 <= i < |lines| ==> ws[i] == |Columns(lines[i])|;
    assert lines != [] && m == 0 ==> ws[0] == 0;
    m
  }

  /** The running maximum of the field counts. */
  method FindMaxColumns(lines: seq<string>) returns (maxColumns: int)
    ensures maxColumns == MaxColumns(lines)
  {
    ghost var widths := Widths(lines);
    maxColumns := 0;
    var i := 0;
    while i < |lines|
      invariant 0 <= i <= |lines|
      invariant maxColumns == MaxOf(widths[..i])
    {
      var columns := Split(RemoveSpaces(lines[i]));
      assert widths[..i + 1][..i] == widths[..i];
      maxColumns := Max(maxColumns, |columns|);
      i := i + 1;
    }
    assert widths[..i] == widths;
  }

  /** What the row builder holds after `j` rounds of the column loop: each field followed
      by a comma, "00," for a column the line lacks. */
  function Appended(cols: seq<string>, j: int): string
    decreases j
  {
    if j <= 0 then ""
    else Appended(cols, j - 1) + (if j - 1 < |cols| then cols[j - 1] + "," else "00,")
  }

  /** `s.substring(0, s.length() - 1)`, which throws on the empty string. */
  function DropLast(s: string): (r: Result<string>)
    ensures r.IndexOutOfBounds? <==> s == []
    ensures r.Ok? ==> r.value + [s[|s| - 1]] == s
  {
    if |s| == 0 then IndexOutOfBounds else Ok(s[..|s| - 1])
  }

  /** The repaired text of a line with fields `cols`. */
  function RowText(cols: seq<string>, maxCols: int): Result<string> {
    DropLast(Trim(Appended(cols, maxCols)))
  }

  /** The repaired text of a row the layer lacks. */
  function FillerRow(maxCols: int): Result<string> {
    DropLast(Trim(Repeat("00,", Max(0, maxCols))))
  }

  /** Row `i` of the repaired layer. */
  function NormalizedRow(lines: seq<string>, i: nat, maxCols: int): Result<string> {
    if i < |lines| then RowText(Columns(lines[i]), maxCols) else FillerRow(maxCols)
  }

  /** The rows of a repair, computed in order: the first one that throws ends it. */
  function Collect<T>(results: seq<Result<T>>): Result<seq<T>> {
    if results == [] then Ok([])
    else
      match Collect(results[..|results| - 1])
      case IndexOutOfBounds => IndexOutOfBounds
      case Ok(rows) =>
        match results[|results| - 1]
        case IndexOutOfBounds => IndexOutOfBounds
        case Ok(row) => Ok(rows + [row])
  }

  /** Once a row has thrown, no later row is reached. */
  lemma {:induction false} CollectStaysFailed<T>(results: seq<Result<T>>, n: nat)
    requires n <= |results| && Collect(results[..n]).IndexOutOfBounds?
    ensures Collect(results).IndexOutOfBounds?
    decreases |results| - n
  {
    if n < |results| {
      assert results[..n + 1][..n] == results[..n];
      CollectStaysFailed(results, n + 1);
    } else {
      assert results[..n] == results;
    }
  }

  /** The row results of a repair to `maxRows` rows of `maxCols` columns. */
  function RowResults(lines: seq<string>, maxRows: int, maxCols: int): (rs: seq<Result<string>>)
    ensures |rs| == if maxRows < 0 then 0 else maxRows
  {
    seq(if maxRows < 0 then 0 else maxRows, i requires 0 <= i => NormalizedRow(lines, i, maxCols))
  }

  /** The layer repaired to `maxRows` rows of `maxCols` columns. */
  function Normalize(lines: seq<string>, maxRows: int, maxCols: int): Result<seq<string>> {
    Collect(RowResults(lines, maxRows, maxCols))
  }

  /** The repair of one layer, row by row, each row built column by column. */
  method NormalizeLayer(lines: seq<string>, maxRows: int, maxCols: int)
    returns (normalizedLines: Result<seq<string>>)
    ensures normalizedLines == Normalize(lines, maxRows, maxCols)
  {
    ghost var results := RowResults(lines, maxRows, maxCols);
    var rows: seq<string> := [];
    var i := 0;
    while i < maxRows
      invariant 0 <= i <= |results|
      invariant Collect(results[..i]) == Ok(rows)
    {
      var row := BuildRow(lines, i, maxCols);
      assert results[..i + 1][..i] == results[..i];
      assert results[i] == row;
      if row.IndexOutOfBounds? {
        CollectStaysFailed(results, i + 1);
        return IndexOutOfBounds;
      }
      rows := rows + [row.value];
      i := i + 1;
    }
    assert results[..i] == results;
    return Ok(rows);
  }

  /** The body of the row loop: the repaired text of row `i`. */
  method BuildRow(lines: seq<string>, i: nat, maxCols: int) returns (row: Result<string>)
    ensures row == NormalizedRow(lines, i, maxCols)
  {
    if i < |lines| {
      var columns := Split(RemoveSpaces(lines[i]));
      var newRow := AppendColumns(columns, maxCols);
      var rowStr := Trim(newRow);
      row := DropLast(rowStr);
    } else {
      var rowStr := Trim(Repeat("00,", Max(0, maxCols)));
      row := DropLast(rowStr);
    }
  }

  /** The column loop: each field and a comma, then "00," up to `maxCols` columns. */
  method AppendColumns(columns: seq<string>, maxCols: int) returns (newRow: string)
    ensures newRow == Appended(columns, maxCols)
  {
    newRow := "";
    var j := 0;
    while j < maxCols
      invariant 0 <= j && (j <= maxCols || j == 0)
      invariant newRow == Appended(columns, j)
    {
      if j < |columns| {
        newRow := newRow + (columns[j] + ",");
      } else {
        newRow := newRow + "00,";
      }
      j := j + 1;
    }
  }

  /** The first `n` fields of a line, then "00" for each column it lacks. */
  function Padded(cols: seq<string>, n: nat): (fs: seq<string>)
    ensures |fs| == n
  {
    seq(n, j requires 0 <= j < n => if j < |cols| then cols[j] else "00")
  }

  /** The fields of a repaired line: the padded fields, the first one with leading
      whitespace trimmed. */
  function RowFields(cols: seq<string>, n: nat): (fs: seq<string>)
    ensures |fs| == n
  {
    var padded := Padded(cols, n);
    if n == 0 then [] else [TrimLeft(padded[0])] + padded[1..]
  }

  /** After `n >= 1` rounds, the row builder holds the padded fields joined by commas, and
      one more comma. */
  lemma {:induction false} AppendedJoin(cols: seq<string>, n: nat)
    requires n >= 1
    ensures Appended(cols, n) == Join(Padded(cols, n)) + ","
  {
    if n > 1 {
      AppendedJoin(cols, n - 1);
      assert Padded(cols, n) == Padded(cols, n - 1) + [Padded(cols, n)[n - 1]];
      JoinAppend(Padded(cols, n - 1), Padded(cols, n)[n - 1]);
    }
  }

  /** The leading trim of the builder's text reaches into the first field only: the comma
      after it stops the trim. */
  lemma TrimLeftJoin(fs: seq<string>)
    requires |fs| >= 1
    ensures TrimLeft(Join(fs) + ",") == Join([TrimLeft(fs[0])] + fs[1..]) + ","
  {
    if |fs| == 1 {
      TrimLeftStops(fs[0], ",");
    } else {
      var a, b := fs[0], Join(fs[1..]);
      var rest := "," + b + ",";
      assert Join(fs) == a + "," + b;
      CommaRegroup(a, b);
      TrimLeftStops(fs[0], rest);
      var t := [TrimLeft(fs[0])] + fs[1..];
      assert t[1..] == fs[1..];
      assert Join(t) == TrimLeft(a) + "," + b;
      CommaRegroup(TrimLeft(a), b);
    }
  }

  lemma CommaRegroup(a: string, b: string)
    ensures a + "," + b + "," == a + ("," + b + ",")
  {
  }

  /** `trim()` on the builder's text: the final comma keeps the trailing trim from acting. */
  lemma TrimJoin(fs: seq<string>)
    requires |fs| >= 1
    ensures Trim(Join(fs) + ",") == Join([TrimLeft(fs[0])] + fs[1..]) + ","
  {
    TrimLeftJoin(fs);
    TrimRightComma(Join([TrimLeft(fs[0])] + fs[1..]));
  }

  lemma TrimRightComma(s: string)
    ensures TrimRight(s + ",") == s + ","
  {
    assert (s + ",")[|s + ","| - 1] == ',';
  }

  /** The fields of a repaired row have no comma, and no space when the line's had none. */
  lemma RowFieldsExclude(cols: seq<string>, n: nat, c: char)
    requires c == ',' || c == ' '
    requires forall j :: 0 <= j < |cols| ==> c !in cols[j]
    ensures forall j :: 0 <= j < n ==> c !in RowFields(cols, n)[j]
  {
    if n > 0 {
      TrimLeftExcludes(Padded(cols, n)[0], c);
    }
  }

  /** A line's repaired text: present exactly when `maxCols >= 1`, and then the row's fields
      joined by commas. */
  lemma RowTextShape(cols: seq<string>, maxCols: int)
    requires forall j :: 0 <= j < |cols| ==> ',' !in cols[j]
    ensures RowText(cols, maxCols).IndexOutOfBounds? <==> maxCols <= 0
    ensures maxCols >= 1 ==>
      && RowText(cols, maxCols) == Ok(Join(RowFields(cols, maxCols)))
      && SplitAll(Join(RowFields(cols, maxCols))) == RowFields(cols, maxCols)
  {
    if maxCols >= 1 {
      AppendedJoin(cols, maxCols);
      TrimJoin(Padded(cols, maxCols));
      RowFieldsExclude(cols, maxCols, ',');
      SplitJoin(RowFields(cols, maxCols));
    }
  }

  lemma {:induction false} RepeatIsAppended(n: int)
    ensures Repeat("00,", Max(0, n)) == Appended([], n)
    decreases n
  {
    if n > 0 {
      RepeatIsAppended(n - 1);
      RepeatAppend("00,", n);
    }
  }

  /** A missing row is repaired as a line without fields. */
  lemma FillerRowShape(maxCols: int)
    ensures FillerRow(maxCols) == RowText([], maxCols)
  {
    RepeatIsAppended(maxCols);
  }

  /** Row `i` of the repaired layer, for `maxCols >= 1`: it has exactly `maxCols` fields and no
      space; field j is the line's field j when the line has one (the first one trimmed) and
      "00" otherwise; a row past the end of the layer is all "00"; fields beyond `maxCols` are
      gone. */
  lemma NormalizedRowFields(lines: seq<string>, i: nat, maxCols: int)
    requires maxCols >= 1
    ensures NormalizedRow(lines, i, maxCols).Ok?
    ensures var row := NormalizedRow(lines, i, maxCols).value;
      var fs := SplitAll(row);
      var cols := if i < |lines| then Columns(lines[i]) else [];
      && |fs| == maxCols
      && ' ' !in row
      && fs[0] == TrimLeft(if |cols| > 0 then cols[0] else "00")
      && (forall j :: 0 < j < maxCols ==> fs[j] == if j < |cols| then cols[j] else "00")
  {
    var cols := if i < |lines| then Columns(lines[i]) else [];
    if i < |lines| {
      ColumnsFacts(lines[i]);
    } else {
      FillerRowShape(maxCols);
    }
    RowTextShape(cols, maxCols);
    RowFieldsExclude(cols, maxCols, ' ');
    JoinExcludes(RowFields(cols, maxCols), ' ');
  }

  /** A row result throws exactly when no column is asked for. */
  lemma NormalizedRowFails(lines: seq<string>, i: nat, maxCols: int)
    ensures NormalizedRow(lines, i, maxCols).IndexOutOfBounds? <==> maxCols <= 0
  {
    if i < |lines| {
      ColumnsFacts(lines[i]);
      RowTextShape(Columns(lines[i]), maxCols);
    } else {
      FillerRowShape(maxCols);
      RowTextShape([], maxCols);
    }
  }

  /** The rows are collected exactly when none of them throws, one per result, in order. */
  lemma {:induction false} CollectOk<T>(results: seq<Result<T>>)
    ensures Collect(results).Ok? <==> forall i :: 0 <= i < |results| ==> results[i].Ok?
    ensures Collect(results).Ok? ==>
      && |Collect(results).value| == |results|
      && forall i :: 0 <= i < |results| ==> Collect(results).value[i] == results[i].value
    decreases |results|
  {
    if results != [] {
      var init := results[..|results| - 1];
      CollectOk(init);
      assert forall i :: 0 <= i < |init| ==> init[i] == results[i];
    }
  }

  /** The repaired layer throws exactly when rows are asked for but no column is; otherwise it
      has `maxRows` rows (none for a negative count), row i being the repair of line i or a
      filler row. */
  lemma NormalizeShape(lines: seq<string>, maxRows: int, maxCols: int)
    ensures Normalize(lines, maxRows, maxCols).IndexOutOfBounds? <==> maxRows > 0 && maxCols <= 0
    ensures var r := Normalize(lines, maxRows, maxCols);
      r.Ok? ==>
        && |r.value| == (if maxRows < 0 then 0 else maxRows)
        && forall i :: 0 <= i < |r.value| ==> NormalizedRow(lines, i, maxCols) == Ok(r.value[i])
  {
    var results := RowResults(lines, maxRows, maxCols);
    CollectOk(results);
    forall i | 0 <= i < |results|
      ensures results[i].IndexOutOfBounds? <==> maxCols <= 0
    {
      NormalizedRowFails(lines, i, maxCols);
    }
    if maxRows > 0 && maxCols <= 0 {
      assert results[0].IndexOutOfBounds?;
    }
  }

  /** The way the repair counts fields undoes joining, for fields without commas or spaces
      whose last one, if there are several, is not empty. */
  lemma ColumnsJoin(fs: seq<string>)
    requires |fs| >= 1
    requires forall j :: 0 <= j < |fs| ==> ',' !in fs[j] && ' ' !in fs[j]
    requires |fs| >= 2 ==> fs[|fs| - 1] != ""
    ensures Columns(Join(fs)) == fs
  {
    var out := Join(fs);
    JoinExcludes(fs, ' ');
    RemoveSpacesFacts(out);
    SplitJoin(fs);
    if |fs| == 1 {
      assert Split(out) == fs;
    } else {
      SplitAllFacts(out);
      assert ',' in out;
      DropTrailingEmptyFacts(fs);
      assert Split(out) == fs;
    }
  }

  /** A repaired row (its fields joined, by RowTextShape) splits back into exactly its fields,
      when the line was no wider than `maxCols`. */
  lemma RowColumns(cols: seq<string>, maxCols: int)
    requires maxCols >= 1 && |cols| <= maxCols
    requires forall j :: 0 <= j < |cols| ==> ',' !in cols[j] && ' ' !in cols[j]
    requires |cols| >= 2 ==> cols[|cols| - 1] != ""
    ensures Columns(Join(RowFields(cols, maxCols))) == RowFields(cols, maxCols)
  {
    var fs := RowFields(cols, maxCols);
    RowFieldsExclude(cols, maxCols, ' ');
    RowFieldsExclude(cols, maxCols, ',');
    if maxCols >= 2 {
      assert fs[maxCols - 1] == Padded(cols, maxCols)[maxCols - 1];
    }
    ColumnsJoin(fs);
  }

  /** Repairing a repaired row's fields again gives the same row. */
  lemma RowTextStable(cols: seq<string>, maxCols: int)
    requires maxCols >= 1
    requires forall j :: 0 <= j < |cols| ==> ',' !in cols[j]
    ensures RowText(RowFields(cols, maxCols), maxCols) == RowText(cols, maxCols)
  {
    var fs := RowFields(cols, maxCols);
    RowFieldsExclude(cols, maxCols, ',');
    TrimLeftIdempotent(Padded(cols, maxCols)[0]);
    assert Padded(fs, maxCols) == fs;
    assert RowFields(fs, maxCols) == fs;
    RowTextShape(fs, maxCols);
    RowTextShape(cols, maxCols);
  }

  /** Row i of a layer repaired to at least its own width: it has exactly `maxCols` fields and
      repairs to itself. */
  lemma NormalizedRowStable(lines: seq<string>, i: nat, maxCols: int)
    requires maxCols >= 1 && MaxColumns(lines) <= maxCols
    ensures NormalizedRow(lines, i, maxCols).Ok?
    ensures var row := NormalizedRow(lines, i, maxCols).value;
      |Columns(row)| == maxCols && RowText(Columns(row), maxCols) == Ok(row)
  {
    var cols := if i < |lines| then Columns(lines[i]) else [];
    if i < |lines| {
      ColumnsFacts(lines[i]);
    } else {
      FillerRowShape(maxCols);
    }
    assert NormalizedRow(lines, i, maxCols) == RowText(cols, maxCols);
    var fs := RowFields(cols, maxCols);
    RowTextShape(cols, maxCols);
    RowColumns(cols, maxCols);
    RowTextStable(cols, maxCols);
    var row := Join(fs);
    assert RowText(cols, maxCols) == Ok(row);
    assert Columns(row) == fs;
  }

  /** Both layers after the repair. */
  datatype Layers = Layers(layer1: seq<string>, layer2: seq<string>)

  /** Both layers padded to the larger row count and the larger column count; the first
      exception abandons the repair and nothing is written. */
  function Synchronize(layer1Lines: seq<string>, layer2Lines: seq<string>): Result<Layers> {
    var maxRows := Max(|layer1Lines|, |layer2Lines|);
    var maxCols := Max(MaxColumns(layer1Lines), MaxColumns(layer2Lines));
    match Normalize(layer1Lines, maxRows, maxCols)
    case IndexOutOfBounds => IndexOutOfBounds
    case Ok(normalizedLayer1) =>
      match Normalize(layer2Lines, maxRows, maxCols)
      case IndexOutOfBounds => IndexOutOfBounds
      case Ok(normalizedLayer2) => Ok(Layers(normalizedLayer1, normalizedLayer2))
  }

  /** The repair of two layers, between reading and writing their files. */
  method SynchronizeLayers(layer1Lines: seq<string>, layer2Lines: seq<string>)
    returns (result: Result<Layers>)
    ensures result == Synchronize(layer1Lines, layer2Lines)
  {
    var maxRows := Max(|layer1Lines|, |layer2Lines|);
    var maxCols1 := FindMaxColumns(layer1Lines);
    var maxCols2 := FindMaxColumns(layer2Lines);
    var maxCols := Max(maxCols1, maxCols2);
    var normalizedLayer1 := NormalizeLayer(layer1Lines, maxRows, maxCols);
    if normalizedLayer1.IndexOutOfBounds? {
      return IndexOutOfBounds;
    }
    var normalizedLayer2 := NormalizeLayer(layer2Lines, maxRows, maxCols);
    if normalizedLayer2.IndexOutOfBounds? {
      return IndexOutOfBounds;
    }
    return Ok(Layers(normalizedLayer1.value, normalizedLayer2.value));
  }

  /** A layer repaired to at least its own width repairs to itself, and its widest row is
      `maxCols` fields wide. */
  lemma NormalizeStable(lines: seq<string>, maxRows: int, maxCols: int)
    requires maxRows >= 1 && maxCols >= 1 && MaxColumns(lines) <= maxCols
    ensures Normalize(lines, maxRows, maxCols).Ok?
    ensures var out := Normalize(lines, maxRows, maxCols).value;
      MaxColumns(out) == maxCols && Normalize(out, maxRows, maxCols) == Ok(out)
  {
    NormalizeShape(lines, maxRows, maxCols);
    var out := Normalize(lines, maxRows, maxCols).value;
    forall i | 0 <= i < maxRows
      ensures |Columns(out[i])| == maxCols && RowText(Columns(out[i]), maxCols) == Ok(out[i])
    {
      NormalizedRowStable(lines, i, maxCols);
    }
    var results := RowResults(out, maxRows, maxCols);
    assert forall i :: 0 <= i < |results| ==> results[i] == Ok(out[i]);
    CollectOk(results);
    assert Collect(results).value == out;
  }

  /** After the repair both layers have the larger row count of the two, and every row of
      either has exactly the larger column count, counted the way the repair counts them; the
      repair throws exactly when there are rows but no line has a field. */
  lemma SynchronizeShape(layer1Lines: seq<string>, layer2Lines: seq<string>)
    ensures var maxRows := Max(|layer1Lines|, |layer2Lines|);
      var maxCols := Max(MaxColumns(layer1Lines), MaxColumns(layer2Lines));
      var r := Synchronize(layer1Lines, layer2Lines);
      && (r.IndexOutOfBounds? <==> maxRows > 0 && maxCols == 0)
      && (r.Ok? ==>
            && |r.value.layer1| == maxRows && |r.value.layer2| == maxRows
            && forall i :: 0 <= i < maxRows ==>
                 |Columns(r.value.layer1[i])| == maxCols && |Columns(r.value.layer2[i])| == maxCols)
  {
    var maxRows := Max(|layer1Lines|, |layer2Lines|);
    var maxCols := Max(MaxColumns(layer1Lines), MaxColumns(layer2Lines));
    NormalizeShape(layer1Lines, maxRows, maxCols);
    NormalizeShape(layer2Lines, maxRows, maxCols);
    var r := Synchronize(layer1Lines, layer2Lines);
    if r.Ok? && maxRows > 0 {
      forall i | 0 <= i < maxRows
        ensures |Columns(r.value.layer1[i])| == maxCols && |Columns(r.value.layer2[i])| == maxCols
      {
        NormalizedRowStable(layer1Lines, i, maxCols);
        NormalizedRowStable(layer2Lines, i, maxCols);
      }
    }
  }

  /** Repairing the repaired layers changes nothing. */
  lemma SynchronizeIdempotent(layer1Lines: seq<string>, layer2Lines: seq<string>)
    requires Synchronize(layer1Lines, layer2Lines).Ok?
    ensures var r := Synchronize(layer1Lines, layer2Lines).value;
      Synchronize(r.layer1, r.layer2) == Synchronize(layer1Lines, layer2Lines)
  {
    var maxRows := Max(|layer1Lines|, |layer2Lines|);
    var maxCols := Max(MaxColumns(layer1Lines), MaxColumns(layer2Lines));
    NormalizeShape(layer1Lines, maxRows, maxCols);
    NormalizeShape(layer2Lines, maxRows, maxCols);
    if maxRows > 0 {
      NormalizeStable(layer1Lines, maxRows, maxCols);
      NormalizeStable(layer2Lines, maxRows, maxCols);
    }
  }

  /** A layer whose every line is only commas has no fields: with rows to repair, the
      repair throws. */
  lemma CommaOnlyLayersThrow()
    ensures MaxColumns([","]) == 0
    ensures Synchronize([","], []).IndexOutOfBounds?
  {
    assert Split(",") == [];
    SynchronizeShape([","], []);
  }
}
