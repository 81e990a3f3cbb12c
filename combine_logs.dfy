/** `combine_logs.py`: each `.log` file of a directory holds newline-delimited execution
    records; the nested `input` and `analysis` documents are flattened, their list
    columns exploded, everything is turned into a `variable`/sample table, and the
    samples are left-merged on `variable` into one wide table. */
module CombineLogs {

  import opened Wrappers
  import opened Seqs
  import opened JsonValue
  import opened Text
  import opened Frames

  const NestedColumns: seq<string> := ["input", "output", "analysis"]
  const AssetsColumn: string := "input.janeAdapter.assets"
  const IsolatesColumn: string := "isolates"
  const Key: string := "variable"
  const LogSuffix: string := ".log"

  /** What `parse_logs_df` returns: the residual log table and the three flattened tables. */
  datatype Parsed = Parsed(logs: Table, input: Table, output: Table, analysis: Table)

  /** `parse_logs_df`. The `output` table is built only when the first record's `output`
      is not null, and the function returns it unconditionally, so a null first output
      ends in `UnboundLocalError` once the other steps have run. */
  function ParseLogs(logs: Table): (r: Result<Parsed, Error>)
    ensures r.Ok? <==>
      && (forall n :: n in NestedColumns ==> n in Names(logs.columns))
      && logs.height >= 1
      && Select(logs, "output").value[0] != JNull
    ensures r.Ok? ==>
      && r.value.logs == Frame(Without(logs.columns, NestedColumns), logs.height)
      && r.value.input == Normalize(Select(logs, "input").value)
      && r.value.output == Normalize(Select(logs, "output").value)
      && r.value.analysis == Normalize(Select(logs, "analysis").value)
    ensures ((forall n :: n in NestedColumns ==> n in Names(logs.columns)) && logs.height >= 1
             && Select(logs, "output").value[0] == JNull) ==> r == Err(UnboundLocal("output_df"))
  {
    match Select(logs, "input")
    case Err(e) => Err(e)
    case Ok(input) =>
      if "output" !in Names(logs.columns) then assert "output" in NestedColumns && "output" !in Names(logs.columns); Err(AttributeError("output"))
      else
        var output := Select(logs, "output").value;
        if logs.height == 0 then Err(MissingRow(0))
        else
          match Select(logs, "analysis")
          case Err(e) => Err(e)
          case Ok(analysis) =>
            match Drop(logs, NestedColumns)
            case Err(e) => Err(e)
            case Ok(rest) =>
              if output[0] == JNull then Err(UnboundLocal("output_df"))
              else Ok(Parsed(rest, Normalize(input), Normalize(output), Normalize(analysis)))
  }

  /** `parse_jane_input_df` and `parse_analysis_df`: the list column `col` is exploded,
      its elements are flattened into new columns, the list column is dropped and the
      new columns are placed after the remaining ones, aligned by row position. */
  function ExpandList(t: Table, col: string): (r: Result<Table, Error>)
    ensures r.Ok? <==> col in Names(t.columns)
    ensures r.Err? ==> r.error == KeyError(col)
    ensures r.Ok? ==> r.value.height == ExplodedCount(Select(t, col).value) >= t.height
  {
    match Select(t, col)
    case Err(e) => Err(e)
    case Ok(cells) =>
      var elements := Normalize(Explode(cells));
      match Drop(t, [col])
      case Err(e) => Err(e)
      case Ok(rest) => Ok(Concat(rest, elements))
  }

  /** The columns `ExpandList` produces: every column but the list column, in order and
      padded with nulls below its own rows (the values are not repeated onto the extra
      rows the explode adds), then the columns of the flattened elements. */
  lemma ExpandListColumns(t: Table, col: string)
    requires col in Names(t.columns)
    ensures var r := ExpandList(t, col).value;
      var kept := Without(t.columns, [col]);
      var elements := Elements(t, col);
      && col !in Names(kept)
      && Names(r.columns) == Names(kept) + Names(elements.columns)
      && (forall j :: 0 <= j < |kept| ==> r.columns[j] == Pad(kept[j], r.height))
      && r.columns[|kept|..] == elements.columns
  {
    ExpandListIs(t, col);
    var rest := Drop(t, [col]).value;
    var elements := Elements(t, col);
    assert rest.columns == Without(t.columns, [col]) && rest.height <= elements.height;
    ConcatTaller(rest, elements);
    WithoutNames(t.columns, [col]);
  }

  lemma ExpandListIs(t: Table, col: string)
    requires col in Names(t.columns)
    ensures Drop(t, [col]).Ok?
    ensures ExpandList(t, col) == Ok(Concat(Drop(t, [col]).value, Elements(t, col)))
  {
  }

  /** The flattened elements of the exploded list column. */
  function Elements(t: Table, col: string): (r: Table)
    requires col in Names(t.columns)
    ensures r.height == ExplodedCount(Select(t, col).value) >= t.height
  {
    Normalize(Explode(Select(t, col).value))
  }

  /** `parse_jane_input_df`: the assets list is spread into columns; without an assets
      column the selection raises `KeyError`. */
  function ParseJaneInput(input: Table): (r: Result<Table, Error>)
    ensures r.Ok? <==> AssetsColumn in Names(input.columns)
    ensures r.Err? ==> r.error == KeyError(AssetsColumn)
    ensures r.Ok? ==> r.value.height >= input.height
  {
    ExpandList(input, AssetsColumn)
  }

  /** `parse_analysis_df`: the isolates list is spread into columns; without an isolates
      column the selection raises `KeyError`. */
  function ParseAnalysis(analysis: Table): (r: Result<Table, Error>)
    ensures r.Ok? <==> IsolatesColumn in Names(analysis.columns)
    ensures r.Err? ==> r.error == KeyError(IsolatesColumn)
    ensures r.Ok? ==> r.value.height >= analysis.height
  {
    ExpandList(analysis, IsolatesColumn)
  }

  /** Column names as the cells of the `variable` column. */
  function Labels(ns: seq<string>): (r: seq<Json>)
    ensures |r| == |ns| && forall i :: 0 <= i < |ns| ==> r[i] == JStr(ns[i])
  {
    seq(|ns|, i requires 0 <= i < |ns| => JStr(ns[i]))
  }

  /** The one row of a one-row table, as a column of values. */
  function FirstRow(t: Table): (r: seq<Json>)
    requires t.height == 1
    ensures |r| == |t.columns| && forall j :: 0 <= j < |t.columns| ==> r[j] == t.columns[j].cells[0]
  {
    seq(|t.columns|, j requires 0 <= j < |t.columns| => assert t.columns[j] in t.columns; t.columns[j].cells[0])
  }

  function Max(a: nat, b: nat): nat { if a < b then b else a }

  /** A per-sample table: the `variable` column and one value column. */
  predicate SampleShaped(t: Table)
  {
    |t.columns| == 2 && t.columns[0].name == Key
  }

  /** `combine_parsed_dfs`: the three tables side by side, transposed, the former column
      names in a column that `reset_index` adds, and the columns renamed to
      `['variable', sampleID]`. The transpose has one column per row of the
      concatenation, so the rename succeeds only when that has exactly one row. */
  function CombineParsed(jane: Table, analysis: Table, logs: Table, sampleID: string): (r: Result<Table, Error>)
    ensures r.Ok? <==> Max(Max(logs.height, jane.height), analysis.height) == 1
    ensures r.Err? ==> r.error == LengthMismatch(Max(Max(logs.height, jane.height), analysis.height) + 1, 2)
    ensures r.Ok? ==> SampleShaped(r.value) && r.value.columns[1].name == sampleID
  {
    var all := Concat(Concat(logs, jane), analysis);
    ConcatHeight(logs, jane, analysis);
    if all.height != 1 then Err(LengthMismatch(all.height + 1, 2))
    else Ok(Transposed(all, sampleID))
  }

  /** Three tables side by side are as tall as the tallest of them. */
  lemma ConcatHeight(a: Table, b: Table, c: Table)
    ensures Concat(Concat(a, b), c).height == Max(Max(a.height, b.height), c.height)
  {
  }

  /** `df.T.reset_index()` of a one-row table, with the columns renamed: the former
      column names as `variable`, the one row beside them as `sampleID`. */
  function Transposed(all: Table, sampleID: string): (r: Table)
    requires all.height == 1
    ensures SampleShaped(r) && r.columns[1].name == sampleID && r.height == |all.columns|
    ensures r.columns[0].cells == Labels(Names(all.columns)) && r.columns[1].cells == FirstRow(all)
  {
    var r := Frame([Column(Key, Labels(Names(all.columns))), Column(sampleID, FirstRow(all))], |all.columns|);
    assert Rectangular(r);
    r
  }

  /** The sample table lists, as `variable`, the log columns, then the jane columns, then
      the analysis columns, in order and with repeated names kept, and beside each its
      value in the one row. */
  lemma CombineParsedRows(jane: Table, analysis: Table, logs: Table, sampleID: string)
    requires CombineParsed(jane, analysis, logs, sampleID).Ok?
    ensures var r := CombineParsed(jane, analysis, logs, sampleID).value;
      && r.height == |logs.columns| + |jane.columns| + |analysis.columns|
      && r.columns[0].cells == Labels(Names(logs.columns) + Names(jane.columns) + Names(analysis.columns))
      && r.columns[1].cells == FirstValues(logs.columns + jane.columns + analysis.columns)
  {
    var all := Concat(Concat(logs, jane), analysis);
    ConcatThree(logs, jane, analysis);
    FirstRowPadded(all, logs.columns + jane.columns + analysis.columns);
  }

  lemma FirstRowPadded(all: Table, cs: seq<Column>)
    requires all.height == 1 && |all.columns| == |cs|
    requires forall j :: 0 <= j < |cs| ==> |cs[j].cells| <= 1 && all.columns[j] == Pad(cs[j], 1)
    ensures FirstRow(all) == FirstValues(cs)
  {
    forall j | 0 <= j < |cs| ensures FirstRow(all)[j] == FirstValues(cs)[j] {
      assert all.columns[j].cells[0] == Pad(cs[j], 1).cells[0];
    }
  }

  /** `pd.concat([a, b, c], axis=1)`: all columns in order, each padded to the tallest. */
  lemma ConcatThree(a: Table, b: Table, c: Table)
    ensures var all := Concat(Concat(a, b), c);
      var cs := a.columns + b.columns + c.columns;
      && Names(all.columns) == Names(a.columns) + Names(b.columns) + Names(c.columns)
      && |all.columns| == |cs|
      && (forall j :: 0 <= j < |cs| ==> |cs[j].cells| <= all.height && all.columns[j] == Pad(cs[j], all.height))
  {
    ConcatColumns(a, b);
    ConcatColumns(Concat(a, b), c);
    var cs := a.columns + b.columns + c.columns;
    forall j | 0 <= j < |cs|
      ensures |cs[j].cells| <= Concat(Concat(a, b), c).height
      ensures Concat(Concat(a, b), c).columns[j] == Pad(cs[j], Concat(Concat(a, b), c).height)
    {
      ConcatThreeAt(a, b, c, j);
    }
  }

  /** One column of a three-way concatenation. */
  lemma ConcatThreeAt(a: Table, b: Table, c: Table, j: nat)
    requires j < |a.columns| + |b.columns| + |c.columns|
    ensures var all := Concat(Concat(a, b), c);
      var x := (a.columns + b.columns + c.columns)[j];
      |x.cells| <= all.height && all.columns[j] == Pad(x, all.height)
  {
    var na, nb := |a.columns|, |b.columns|;
    IndexThree(a.columns, b.columns, c.columns, j);
    if j < na {
      ConcatThreeFirst(a, b, c, j);
    } else if j < na + nb {
      ConcatThreeSecond(a, b, c, j - na);
    } else {
      ConcatRightAt(Concat(a, b), c, j - na - nb);
    }
  }

  /** A column of the first table in a three-way concatenation. */
  lemma ConcatThreeFirst(a: Table, b: Table, c: Table, j: nat)
    requires j < |a.columns|
    ensures var all := Concat(Concat(a, b), c);
      |a.columns[j].cells| <= all.height && all.columns[j] == Pad(a.columns[j], all.height)
  {
    var first := Concat(a, b);
    ConcatLeftAt(a, b, j);
    ConcatLeftAt(first, c, j);
    PadTwice(a.columns[j], first.height, Concat(first, c).height);
  }

  lemma ConcatThreeSecond(a: Table, b: Table, c: Table, j: nat)
    requires j < |b.columns|
    ensures var all := Concat(Concat(a, b), c);
      |b.columns[j].cells| <= all.height && all.columns[|a.columns| + j] == Pad(b.columns[j], all.height)
  {
    var first := Concat(a, b);
    ConcatRightAt(a, b, j);
    ConcatLeftAt(first, c, |a.columns| + j);
    PadTwice(b.columns[j], first.height, Concat(first, c).height);
  }

  /** A table's value in its first row, column by column, null for a table without rows. */
  function FirstValues(cs: seq<Column>): (r: seq<Json>)
    ensures |r| == |cs|
    ensures forall j :: 0 <= j < |cs| ==> r[j] == if cs[j].cells == [] then JNull else cs[j].cells[0]
  {
    seq(|cs|, j requires 0 <= j < |cs| => if cs[j].cells == [] then JNull else cs[j].cells[0])
  }

  /** Lines 149-153 for one file: the log table of a `.log` file to its sample table. */
  function SampleOf(logs: Table, sampleID: string): (r: Result<Table, Error>)
    ensures r.Ok? ==> SampleShaped(r.value) && r.value.columns[1].name == sampleID
  {
    match ParseLogs(logs)
    case Err(e) => Err(e)
    case Ok(p) => SampleOfParsed(p, sampleID)
  }

  function SampleOfParsed(p: Parsed, sampleID: string): (r: Result<Table, Error>)
    ensures r.Ok? ==> SampleShaped(r.value) && r.value.columns[1].name == sampleID
  {
    match ParseJaneInput(p.input)
    case Err(e) => Err(e)
    case Ok(jane) =>
      match ParseAnalysis(p.analysis)
      case Err(e) => Err(e)
      case Ok(analysis) =>
        var r := CombineParsed(jane, analysis, p.logs, sampleID);
        assert r.Ok? ==> Names(r.value.columns)[1] == sampleID;
        r
  }

  /** A sample table only exists for a log holding exactly one record whose asset list
      and isolate list have at most one element each: anything more makes the
      concatenation taller than one row and the rename in `CombineParsed` fails. */
  lemma SampleNeedsSingleRecord(logs: Table, sampleID: string)
    requires SampleOf(logs, sampleID).Ok?
    ensures logs.height == 1
    ensures var p := ParseLogs(logs).value;
      && RowsFor(Select(p.input, AssetsColumn).value[0]) == 1
      && RowsFor(Select(p.analysis, IsolatesColumn).value[0]) == 1
  {
    var p := ParseLogs(logs).value;
    ParsedHeights(logs);
    ParsedSampleHeights(p, sampleID);
    SingleCount(Select(p.input, AssetsColumn).value);
    SingleCount(Select(p.analysis, IsolatesColumn).value);
  }

  lemma ParsedSampleHeights(p: Parsed, sampleID: string)
    requires SampleOfParsed(p, sampleID).Ok?
    ensures AssetsColumn in Names(p.input.columns) && IsolatesColumn in Names(p.analysis.columns)
    ensures p.logs.height <= 1
    ensures ExplodedCount(Select(p.input, AssetsColumn).value) <= 1
    ensures ExplodedCount(Select(p.analysis, IsolatesColumn).value) <= 1
  {
    var jane := ParseJaneInput(p.input).value;
    var analysis := ParseAnalysis(p.analysis).value;
    CombinedHeights(jane, analysis, p.logs, sampleID);
    ExpandedHeight(p.input, AssetsColumn);
    ExpandedHeight(p.analysis, IsolatesColumn);
  }

  lemma CombinedHeights(jane: Table, analysis: Table, logs: Table, sampleID: string)
    requires CombineParsed(jane, analysis, logs, sampleID).Ok?
    ensures logs.height <= 1 && jane.height <= 1 && analysis.height <= 1
  {
  }

  lemma ParsedHeights(logs: Table)
    requires ParseLogs(logs).Ok?
    ensures var p := ParseLogs(logs).value;
      p.logs.height == p.input.height == p.analysis.height == logs.height >= 1
  {
  }

  lemma ExpandedHeight(t: Table, col: string)
    requires col in Names(t.columns)
    ensures ExpandList(t, col).Ok?
    ensures ExpandList(t, col).value.height == ExplodedCount(Select(t, col).value) >= t.height
  {
  }

  lemma SingleCount(cells: seq<Json>)
    requires |cells| >= 1 && ExplodedCount(cells) <= 1
    ensures RowsFor(cells[0]) == 1
  {
    assert ExplodedCount(cells) == RowsFor(cells[0]) + ExplodedCount(cells[1..]);
  }

  // ---------------------------------------------------------------------------
  // The left merge of `combine_all_logs`.

  /** A table whose first column is `variable`: every accumulator after the first sample. */
  predicate Keyed(t: Table)
  {
    |t.columns| >= 1 && t.columns[0].name == Key
  }

  /** The values of the `variable` column. */
  function KeySet(t: Table): set<Json>
  {
    if t.columns == [] then {} else set x | x in t.columns[0].cells
  }

  /** The rows of `keys` holding `key`, ascending. */
  function Positions(keys: seq<Json>, key: Json): (ps: seq<nat>)
    ensures forall m :: 0 <= m < |ps| ==> ps[m] < |keys| && keys[ps[m]] == key
    ensures forall m, m' :: 0 <= m < m' < |ps| ==> ps[m] < ps[m']
    ensures ps == [] <==> key !in keys
    ensures forall j :: 0 <= j < |keys| && keys[j] == key ==> j in ps
  {
    if keys == [] then []
    else
      var n := |keys| - 1;
      var front := Positions(keys[..n], key);
      PositionsSnoc(keys, key, front);
      front + (if keys[n] == key then [n] else [])
  }

  /** The rows holding `key` among all but the last row, then the last row if it does. */
  lemma PositionsSnoc(keys: seq<Json>, key: Json, front: seq<nat>)
    requires keys != []
    requires forall m :: 0 <= m < |front| ==> front[m] < |keys| - 1 && keys[..|keys| - 1][front[m]] == key
    requires forall m, m' :: 0 <= m < m' < |front| ==> front[m] < front[m']
    requires front == [] <==> key !in keys[..|keys| - 1]
    requires forall j :: 0 <= j < |keys| - 1 && keys[..|keys| - 1][j] == key ==> j in front
    ensures var n := |keys| - 1; var ps := front + (if keys[n] == key then [n] else []);
      && (forall m :: 0 <= m < |ps| ==> ps[m] < |keys| && keys[ps[m]] == key)
      && (forall m, m' :: 0 <= m < m' < |ps| ==> ps[m] < ps[m'])
      && (ps == [] <==> key !in keys)
      && (forall j :: 0 <= j < |keys| && keys[j] == key ==> j in ps)
  {
    PositionsSnocHold(keys, key, front);
    PositionsSnocSorted(keys, key, front);
    PositionsSnocEmpty(keys, key, front);
    PositionsSnocComplete(keys, key, front);
  }

  lemma PositionsSnocHold(keys: seq<Json>, key: Json, front: seq<nat>)
    requires keys != []
    requires forall m :: 0 <= m < |front| ==> front[m] < |keys| - 1 && keys[..|keys| - 1][front[m]] == key
    ensures var n := |keys| - 1; var ps := front + (if keys[n] == key then [n] else []);
      forall m :: 0 <= m < |ps| ==> ps[m] < |keys| && keys[ps[m]] == key
  {
    var n := |keys| - 1;
    var ps := front + (if keys[n] == key then [n] else []);
    forall m | 0 <= m < |ps| ensures ps[m] < |keys| && keys[ps[m]] == key {
      if m < |front| {
        assert ps[m] == front[m];
        assert keys[..n][front[m]] == keys[front[m]];
      }
    }
  }

  lemma PositionsSnocSorted(keys: seq<Json>, key: Json, front: seq<nat>)
    requires keys != []
    requires forall m :: 0 <= m < |front| ==> front[m] < |keys| - 1
    requires forall m, m' :: 0 <= m < m' < |front| ==> front[m] < front[m']
    ensures var n := |keys| - 1; var ps := front + (if keys[n] == key then [n] else []);
      forall m, m' :: 0 <= m < m' < |ps| ==> ps[m] < ps[m']
  {
  }

  lemma PositionsSnocEmpty(keys: seq<Json>, key: Json, front: seq<nat>)
    requires keys != []
    requires front == [] <==> key !in keys[..|keys| - 1]
    ensures var n := |keys| - 1; var ps := front + (if keys[n] == key then [n] else []);
      ps == [] <==> key !in keys
  {
    var n := |keys| - 1;
    assert keys == keys[..n] + [keys[n]];
  }

  lemma PositionsSnocComplete(keys: seq<Json>, key: Json, front: seq<nat>)
    requires keys != []
    requires forall j :: 0 <= j < |keys| - 1 && keys[..|keys| - 1][j] == key ==> j in front
    ensures var n := |keys| - 1;
      forall j :: 0 <= j < |keys| && keys[j] == key ==> j in front + (if keys[n] == key then [n] else [])
  {
    var n := |keys| - 1;
    forall j | 0 <= j < n && keys[j] == key ensures j in front {
      assert keys[..n][j] == key;
    }
  }

  /** Which left row and which right row (if any) make up one row of a merge. */
  datatype Match = Match(left: nat, right: Option<nat>)

  /** The rows one left row contributes: one per matching right row, in right order,
      or a single row with no match. */
  function RowMatches(i: nat, key: Json, rk: seq<Json>): (ms: seq<Match>)
    ensures |ms| >= 1
    ensures forall m :: 0 <= m < |ms| ==> ms[m].left == i
    ensures forall m :: 0 <= m < |ms| && ms[m].right.Some? ==> ms[m].right.value < |rk| && rk[ms[m].right.value] == key
    ensures forall m :: 0 <= m < |ms| && ms[m].right.None? ==> key !in rk
    ensures forall j :: 0 <= j < |rk| && rk[j] == key ==> Match(i, Some(j)) in ms
  {
    var ps := Positions(rk, key);
    if ps == [] then [Match(i, None)]
    else
      var ms := seq(|ps|, m requires 0 <= m < |ps| => Match(i, Some(ps[m])));
      assert forall m :: 0 <= m < |ps| ==> ms[m] == Match(i, Some(ps[m]));
      ms
  }

  /** `left.merge(right, on=..., how='left')` as row pairs: left rows in order, each
      repeated once per matching right row, an unmatched left row kept with no partner. */
  function MergeRows(lk: seq<Json>, rk: seq<Json>): (ms: seq<Match>)
    ensures forall m :: 0 <= m < |ms| ==> ms[m].left < |lk|
    ensures forall m :: 0 <= m < |ms| && ms[m].right.Some? ==>
              ms[m].right.value < |rk| && rk[ms[m].right.value] == lk[ms[m].left]
  {
    if lk == [] then []
    else
      var n := |lk| - 1;
      var front := MergeRows(lk[..n], rk);
      var last := RowMatches(n, lk[n], rk);
      MatchesSnoc(lk, rk, front, last);
      front + last
  }

  /** The rows matched for all but the last left row, then those for the last. */
  lemma MatchesSnoc(lk: seq<Json>, rk: seq<Json>, front: seq<Match>, last: seq<Match>)
    requires lk != []
    requires forall m :: 0 <= m < |front| ==> front[m].left < |lk| - 1
    requires forall m :: 0 <= m < |front| && front[m].right.Some? ==>
               front[m].right.value < |rk| && rk[front[m].right.value] == lk[..|lk| - 1][front[m].left]
    requires forall m :: 0 <= m < |last| ==> last[m].left == |lk| - 1
    requires forall m :: 0 <= m < |last| && last[m].right.Some? ==>
               last[m].right.value < |rk| && rk[last[m].right.value] == lk[|lk| - 1]
    ensures forall m :: 0 <= m < |front + last| ==> (front + last)[m].left < |lk|
    ensures forall m :: 0 <= m < |front + last| && (front + last)[m].right.Some? ==>
              (front + last)[m].right.value < |rk| && rk[(front + last)[m].right.value] == lk[(front + last)[m].left]
  {
    var ms := front + last;
    forall m | 0 <= m < |ms|
      ensures ms[m].left < |lk|
      ensures ms[m].right.Some? ==> ms[m].right.value < |rk| && rk[ms[m].right.value] == lk[ms[m].left]
    {
      if m < |front| {
        assert ms[m] == front[m];
        assert lk[..|lk| - 1][front[m].left] == lk[front[m].left];
      } else {
        assert ms[m] == last[m - |front|];
      }
    }
  }

  /** A left merge pairs every left row with every right row holding its key: a key
      the right side repeats multiplies the left row. */
  lemma {:induction false} MergeRowsComplete(lk: seq<Json>, rk: seq<Json>)
    ensures forall i, j :: 0 <= i < |lk| && 0 <= j < |rk| && lk[i] == rk[j] ==> Match(i, Some(j)) in MergeRows(lk, rk)
  {
    if lk != [] {
      var n := |lk| - 1;
      MergeRowsComplete(lk[..n], rk);
      var front := MergeRows(lk[..n], rk);
      var last := RowMatches(n, lk[n], rk);
      assert MergeRows(lk, rk) == front + last;
      forall i, j | 0 <= i < |lk| && 0 <= j < |rk| && lk[i] == rk[j]
        ensures Match(i, Some(j)) in front + last
      {
        if i < n {
          assert lk[..n][i] == lk[i];
          assert Match(i, Some(j)) in front;
        } else {
          assert Match(i, Some(j)) in last;
        }
      }
    }
  }

  /** A left merge keeps every left row at least once. */
  lemma {:induction false} MergeRowsKeepLeft(lk: seq<Json>, rk: seq<Json>)
    ensures |MergeRows(lk, rk)| >= |lk|
    ensures forall i :: 0 <= i < |lk| ==> i in LeftRows(MergeRows(lk, rk))
  {
    if lk != [] {
      var n := |lk| - 1;
      MergeRowsKeepLeft(lk[..n], rk);
      var front := MergeRows(lk[..n], rk);
      var last := RowMatches(n, lk[n], rk);
      assert MergeRows(lk, rk) == front + last;
      assert LeftRows(front + last) == LeftRows(front) + LeftRows(last);
      assert LeftRows(last)[0] == n;
    }
  }

  /** A left merge keeps the left order, and leaves a row without a partner only where
      the right side lacks its key. */
  lemma {:induction false} MergeRowsOrdered(lk: seq<Json>, rk: seq<Json>)
    ensures forall m, m' :: 0 <= m < m' < |MergeRows(lk, rk)| ==> MergeRows(lk, rk)[m].left <= MergeRows(lk, rk)[m'].left
    ensures forall m :: 0 <= m < |MergeRows(lk, rk)| && MergeRows(lk, rk)[m].right.None? ==>
              lk[MergeRows(lk, rk)[m].left] !in rk
  {
    if lk != [] {
      var n := |lk| - 1;
      MergeRowsOrdered(lk[..n], rk);
      var front := MergeRows(lk[..n], rk);
      var last := RowMatches(n, lk[n], rk);
      assert MergeRows(lk, rk) == front + last;
      OrderedSnoc(lk, rk, front, last);
    }
  }

  /** The order and the missing partners of all but the last left row, then the last. */
  lemma OrderedSnoc(lk: seq<Json>, rk: seq<Json>, front: seq<Match>, last: seq<Match>)
    requires lk != []
    requires forall m :: 0 <= m < |front| ==> front[m].left < |lk| - 1
    requires forall m, m' :: 0 <= m < m' < |front| ==> front[m].left <= front[m'].left
    requires forall m :: 0 <= m < |front| && front[m].right.None? ==> lk[..|lk| - 1][front[m].left] !in rk
    requires forall m :: 0 <= m < |last| ==> last[m].left == |lk| - 1
    requires forall m :: 0 <= m < |last| && last[m].right.None? ==> lk[|lk| - 1] !in rk
    ensures forall m, m' :: 0 <= m < m' < |front + last| ==> (front + last)[m].left <= (front + last)[m'].left
    ensures forall m :: 0 <= m < |front + last| && (front + last)[m].right.None? ==> lk[(front + last)[m].left] !in rk
  {
    var n := |lk| - 1;
    var ms := front + last;
    assert forall m :: 0 <= m < |front| ==> ms[m] == front[m] && lk[..n][front[m].left] == lk[front[m].left];
    assert forall m :: 0 <= m < |last| ==> ms[|front| + m] == last[m];
  }

  function LeftRows(ms: seq<Match>): (idx: seq<nat>)
    ensures |idx| == |ms| && forall m :: 0 <= m < |ms| ==> idx[m] == ms[m].left
  {
    seq(|ms|, m requires 0 <= m < |ms| => ms[m].left)
  }

  /** The sample's value column laid out along the merged rows, null where unmatched. */
  function RightCells(ms: seq<Match>, values: seq<Json>): (r: seq<Json>)
    requires forall m :: 0 <= m < |ms| && ms[m].right.Some? ==> ms[m].right.value < |values|
    ensures |r| == |ms|
    ensures forall m :: 0 <= m < |ms| ==> r[m] == (if ms[m].right.Some? then values[ms[m].right.value] else JNull)
  {
    seq(|ms|, m requires 0 <= m < |ms| => if ms[m].right.Some? then values[ms[m].right.value] else JNull)
  }

  /** `temp_df.merge(combined_df, on='variable', how='left')`: the accumulator's columns
      then the sample's value column. */
  function LeftMerge(acc: Table, s: Table): (r: Table)
    requires Keyed(acc) && SampleShaped(s)
    ensures Keyed(r)
    ensures Names(r.columns) == Names(acc.columns) + [s.columns[1].name]
    ensures r.height >= acc.height
  {
    MergeBounds(acc, s);
    var ms := MergeRows(acc.columns[0].cells, s.columns[0].cells);
    var left := GatherAll(acc, LeftRows(ms));
    var right := Column(s.columns[1].name, RightCells(ms, s.columns[1].cells));
    var r := Frame(left.columns + [right], |ms|);
    assert Rectangular(r);
    NamesAppend(left.columns, [right]);
    r
  }

  /** The merged rows point into the accumulator and the sample, and are at least as
      many as the accumulator's. */
  lemma MergeBounds(acc: Table, s: Table)
    requires Keyed(acc) && SampleShaped(s)
    ensures var ms := MergeRows(acc.columns[0].cells, s.columns[0].cells);
      && |ms| >= acc.height
      && (forall i :: 0 <= i < |LeftRows(ms)| ==> LeftRows(ms)[i] < acc.height)
      && (forall m :: 0 <= m < |ms| && ms[m].right.Some? ==> ms[m].right.value < |s.columns[1].cells|)
  {
    assert acc.columns[0] in acc.columns && s.columns[0] in s.columns && s.columns[1] in s.columns;
    MergeRowsKeepLeft(acc.columns[0].cells, s.columns[0].cells);
  }

  /** The merge keeps every accumulator row and only those: the set of variables is the
      accumulator's, whatever the sample holds. */
  lemma MergeKeepsKeySet(acc: Table, s: Table)
    requires Keyed(acc) && SampleShaped(s)
    ensures KeySet(LeftMerge(acc, s)) == KeySet(acc)
  {
    assert acc.columns[0] in acc.columns && s.columns[0] in s.columns;
    var lk, rk := acc.columns[0].cells, s.columns[0].cells;
    var ms := MergeRows(lk, rk);
    assert LeftMerge(acc, s).columns[0].cells == Gather(acc.columns[0], LeftRows(ms)).cells;
    MergeRowsKeepLeft(lk, rk);
    GatherSameValues(acc.columns[0], LeftRows(ms));
  }

  // ---------------------------------------------------------------------------
  // The accumulation loop and the post-processing of `combine_all_logs`.

  /** One pass of the loop body: the first non-empty sample becomes the accumulator,
      every later one is left-merged into it. */
  function Step(acc: Table, s: Table): (r: Table)
    requires IsEmpty(acc) ==> acc == EmptyFrame || SampleShaped(acc) || Keyed(acc)
    requires !IsEmpty(acc) ==> Keyed(acc)
    requires SampleShaped(s)
    ensures Keyed(r)
    ensures !IsEmpty(acc) ==> !IsEmpty(r) && KeySet(r) == KeySet(acc)
  {
    if IsEmpty(acc) then s
    else
      MergeKeepsKeySet(acc, s);
      LeftMerge(acc, s)
  }

  /** The accumulator after the loop has seen the samples `ss` in order. */
  function Accumulate(ss: seq<Table>): (r: Table)
    requires forall k :: 0 <= k < |ss| ==> SampleShaped(ss[k])
    ensures ss == [] <==> r == EmptyFrame
    ensures ss != [] ==> Keyed(r)
  {
    if ss == [] then EmptyFrame
    else Step(Accumulate(ss[..|ss| - 1]), ss[|ss| - 1])
  }

  lemma AccumulateStep(ss: seq<Table>, s: Table)
    requires forall k :: 0 <= k < |ss| ==> SampleShaped(ss[k])
    requires SampleShaped(s)
    ensures Accumulate(ss + [s]) == Step(Accumulate(ss), s)
  {
    assert (ss + [s])[..|ss|] == ss;
  }

  /** The first sample with rows, if any. */
  function FirstNonEmpty(ss: seq<Table>): (r: Option<nat>)
    ensures r.Some? ==> r.value < |ss| && !IsEmpty(ss[r.value]) && forall k :: 0 <= k < r.value ==> IsEmpty(ss[k])
    ensures r.None? ==> forall k :: 0 <= k < |ss| ==> IsEmpty(ss[k])
  {
    if ss == [] then None
    else
      var n := |ss| - 1;
      match FirstNonEmpty(ss[..n])
      case Some(k) => Some(k)
      case None => if IsEmpty(ss[n]) then None else Some(n)
  }

  /** The variables the loop ends with are those of the first sample with rows: later
      samples are left-merged and add none of their own. */
  lemma {:induction false} AccumulateKeys(ss: seq<Table>)
    requires forall k :: 0 <= k < |ss| ==> SampleShaped(ss[k])
    ensures IsEmpty(Accumulate(ss)) <==> FirstNonEmpty(ss).None?
    ensures KeySet(Accumulate(ss)) == match FirstNonEmpty(ss) case None => {} case Some(k) => KeySet(ss[k])
  {
    if ss != [] {
      var n := |ss| - 1;
      var init := ss[..n];
      AccumulateKeys(init);
      var acc := Accumulate(init);
      assert Accumulate(ss) == Step(acc, ss[n]);
      if IsEmpty(acc) {
        assert ss[n].columns[0] in ss[n].columns;
        assert IsEmpty(ss[n]) ==> ss[n].columns[0].cells == [];
      }
    }
  }

  /** The entries of the directory listing whose name ends in `.log`, in listing order. */
  function LogNames(names: seq<string>): (r: seq<string>)
    ensures |r| <= |names|
  {
    if names == [] then []
    else
      var n := |names| - 1;
      LogNames(names[..n]) + (if EndsWith(names[n], LogSuffix) then [names[n]] else [])
  }

  /** `LogNames` keeps exactly the entries ending in `.log`. */
  lemma {:induction false} LogNamesMembers(names: seq<string>)
    ensures forall n :: n in LogNames(names) <==> n in names && EndsWith(n, LogSuffix)
    ensures LogNames(names) == [] <==> forall n :: n in names ==> !EndsWith(n, LogSuffix)
  {
    if names != [] {
      var n := |names| - 1;
      LogNamesMembers(names[..n]);
      assert names == names[..n] + [names[n]];
    }
  }

  /** The per-file steps of the loop body (lines 150-153) as one function of the log
      table and the sample's name. */
  type Pipeline = (Table, string) -> Result<Table, Error>

  const SamplePipeline: Pipeline := (logs: Table, path: string) => SampleOf(logs, path)

  /** A pipeline whose samples have the shape `combine_parsed_dfs` gives them. */
  ghost predicate Shaped(pipeline: Pipeline)
  {
    forall logs: Table, id: string :: pipeline(logs, id).Ok? ==>
      SampleShaped(pipeline(logs, id).value) && pipeline(logs, id).value.columns[1].name == id
  }

  lemma SamplePipelineShaped()
    ensures Shaped(SamplePipeline)
  {
    forall logs: Table, id: string | SamplePipeline(logs, id).Ok?
      ensures SampleShaped(SamplePipeline(logs, id).value) && SamplePipeline(logs, id).value.columns[1].name == id
    {
      assert SamplePipeline(logs, id) == SampleOf(logs, id);
    }
  }

  /** One `.log` entry: its path is the directory joined with the entry, `read` (which
      stands for `read_logs`) gives its log table, and the pipeline its sample. */
  function SampleAt(dir: string, name: string, read: string -> Result<Table, Error>, pipeline: Pipeline): (r: Result<Table, Error>)
  {
    var path := Join(dir, name);
    match read(path)
    case Err(e) => Err(e)
    case Ok(logs) => pipeline(logs, path)
  }

  /** `SampleAt` as a function of the entry's name alone. */
  function Sampler(dir: string, read: string -> Result<Table, Error>, pipeline: Pipeline): (f: string -> Result<Table, Error>)
  {
    n => SampleAt(dir, n, read, pipeline)
  }

  /** The sampler gives each entry the sample of its joined path. */
  lemma SamplerAt(dir: string, read: string -> Result<Table, Error>, pipeline: Pipeline, n: string)
    ensures Sampler(dir, read, pipeline)(n) == SampleAt(dir, n, read, pipeline)
  {
  }

  /** The samples of the entries `names`, in order; the first entry that fails aborts
      the run with its error. */
  function Collect(names: seq<string>, sample: string -> Result<Table, Error>): (r: Result<seq<Table>, Error>)
  {
    if names == [] then Ok([])
    else
      var n := |names| - 1;
      match Collect(names[..n], sample)
      case Err(e) => Err(e)
      case Ok(ss) =>
        match sample(names[n])
        case Err(e) => Err(e)
        case Ok(s) => Ok(ss + [s])
  }

  /** `Collect` gets through its entries only when every one of them yields a sample. */
  lemma {:induction false} CollectOk(names: seq<string>, sample: string -> Result<Table, Error>)
    ensures Collect(names, sample).Ok? <==> forall k :: 0 <= k < |names| ==> sample(names[k]).Ok?
  {
    if names != [] {
      var n := |names| - 1;
      CollectOk(names[..n], sample);
      assert forall k :: 0 <= k < n ==> names[..n][k] == names[k];
    }
  }

  /** Otherwise the error is that of the first entry that fails. */
  lemma {:induction false} CollectFirstError(names: seq<string>, sample: string -> Result<Table, Error>, k: nat)
    requires k < |names| && sample(names[k]).Err?
    requires forall j :: 0 <= j < k ==> sample(names[j]).Ok?
    ensures Collect(names, sample) == Err(sample(names[k]).error)
  {
    var n := |names| - 1;
    if k < n {
      assert forall j :: 0 <= j <= k ==> names[..n][j] == names[j];
      CollectFirstError(names[..n], sample, k);
    } else {
      CollectOk(names[..n], sample);
      assert forall j :: 0 <= j < n ==> names[..n][j] == names[j];
    }
  }

  /** On success there is one sample per entry, in order. */
  lemma {:induction false} CollectOrder(names: seq<string>, sample: string -> Result<Table, Error>)
    requires Collect(names, sample).Ok?
    ensures var ss := Collect(names, sample).value;
      && |ss| == |names|
      && forall k :: 0 <= k < |ss| ==> sample(names[k]) == Ok(ss[k])
  {
    if names != [] {
      var n := |names| - 1;
      CollectOrder(names[..n], sample);
      var ss := Collect(names[..n], sample).value;
      var all := Collect(names, sample).value;
      assert all == ss + [sample(names[n]).value];
      forall k | 0 <= k < |all| ensures sample(names[k]) == Ok(all[k]) {
        if k < n {
          assert all[k] == ss[k] && names[..n][k] == names[k];
        }
      }
    }
  }

  /** The sample tables of the `.log` entries of the listing, in listing order, each
      named by its joined path. */
  function LogSamples(dir: string, names: seq<string>, read: string -> Result<Table, Error>, pipeline: Pipeline): (r: Result<seq<Table>, Error>)
    requires Shaped(pipeline)
    ensures r.Ok? ==> |r.value| == |LogNames(names)|
    ensures r.Ok? ==> forall k :: 0 <= k < |r.value| ==>
      SampleShaped(r.value[k]) && r.value[k].columns[1].name == Join(dir, LogNames(names)[k])
  {
    var r := Collect(LogNames(names), Sampler(dir, read, pipeline));
    if r.Ok? then CollectOrder(LogNames(names), Sampler(dir, read, pipeline)); r else r
  }

  /** A run gets through the loop only when every `.log` entry yields a sample. */
  lemma LogSamplesOk(dir: string, names: seq<string>, read: string -> Result<Table, Error>, pipeline: Pipeline)
    requires Shaped(pipeline)
    ensures LogSamples(dir, names, read, pipeline).Ok? <==>
      forall k :: 0 <= k < |LogNames(names)| ==> SampleAt(dir, LogNames(names)[k], read, pipeline).Ok?
  {
    assert LogSamples(dir, names, read, pipeline) == Collect(LogNames(names), Sampler(dir, read, pipeline));
    CollectOk(LogNames(names), Sampler(dir, read, pipeline));
  }

  /** `s.split('/')[-1]` applied to every column name. */
  function ShortNames(cs: seq<Column>): (r: seq<Column>)
    ensures |r| == |cs|
    ensures forall j :: 0 <= j < |cs| ==> r[j] == Column(LastSegment(cs[j].name), cs[j].cells)
  {
    seq(|cs|, j requires 0 <= j < |cs| => Column(LastSegment(cs[j].name), cs[j].cells))
  }

  /** `rename(columns={'index': 'variable'})`. */
  function RenameIndex(cs: seq<Column>): (r: seq<Column>)
    ensures |r| == |cs|
    ensures forall j :: 0 <= j < |cs| ==> r[j] == Column(if cs[j].name == "index" then Key else cs[j].name, cs[j].cells)
  {
    seq(|cs|, j requires 0 <= j < |cs| => Column(if cs[j].name == "index" then Key else cs[j].name, cs[j].cells))
  }

  /** Lines 165-180: `variable` becomes the index, the other column names are cut to
      their last path segment, the index is put back as the first column, and rows with
      a repeated `variable` are dropped. Without a `variable` column (no sample was
      ever produced) `set_index` raises `KeyError`. */
  function PostProcess(acc: Table): (r: Result<Table, Error>)
    ensures r.Ok? <==> Key in Names(acc.columns)
    ensures r.Err? ==> r.error == KeyError(Key)
    ensures r.Ok? ==> Keyed(r.value) && |r.value.columns| == 1 + |Without(acc.columns, [Key])|
  {
    match Select(acc, Key)
    case Err(e) => Err(e)
    case Ok(_) => Ok(DropDuplicates(Reindexed(acc)))
  }

  /** The table before `drop_duplicates`: the `variable` values first, then the other
      columns under their new names. */
  function Reindexed(acc: Table): (t: Table)
    requires Key in Names(acc.columns)
    ensures |t.columns| >= 1 && t.columns[0] == Column(Key, Select(acc, Key).value)
    ensures t.columns[1..] == RenameIndex(ShortNames(Without(acc.columns, [Key])))
  {
    var others := RenameIndex(ShortNames(Without(acc.columns, [Key])));
    var t := Frame([Column(Key, Select(acc, Key).value)] + others, acc.height);
    assert Rectangular(t) by {
      forall j | 0 <= j < |others| ensures |others[j].cells| == acc.height {
        var c := Without(acc.columns, [Key])[j];
        assert c in acc.columns;
      }
    }
    t
  }

  /** `combine_all_logs` for a given per-file pipeline: the samples of the `.log`
      entries, accumulated, then post-processed. */
  function CombineWith(dir: string, names: seq<string>, read: string -> Result<Table, Error>, pipeline: Pipeline): (r: Result<Table, Error>)
    requires Shaped(pipeline)
  {
    match LogSamples(dir, names, read, pipeline)
    case Err(e) => Err(e)
    case Ok(ss) => PostProcess(Accumulate(ss))
  }

  /** `combine_all_logs`. */
  function CombineAll(dir: string, names: seq<string>, read: string -> Result<Table, Error>): (r: Result<Table, Error>)
  {
    SamplePipelineShaped();
    CombineWith(dir, names, read, SamplePipeline)
  }

  /** A directory without `.log` entries leaves the accumulator empty, and `set_index`
      then raises `KeyError`. This holds for any pipeline of the right shape,
      `CombineAll`'s included. */
  lemma EmptyDirectoryFails(dir: string, names: seq<string>, read: string -> Result<Table, Error>, pipeline: Pipeline)
    requires Shaped(pipeline)
    requires forall n :: n in names ==> !EndsWith(n, LogSuffix)
    ensures CombineWith(dir, names, read, pipeline) == Err(KeyError(Key))
  {
    LogNamesMembers(names);
    assert LogSamples(dir, names, read, pipeline) == Ok([]);
  }

  /** The combined table: `variable` first, each variable once, and the variables are
      exactly those of the first sample with rows (none when every sample is empty).
      This holds for any pipeline of the right shape, `CombineAll`'s included. */
  lemma CombineVariables(dir: string, names: seq<string>, read: string -> Result<Table, Error>, pipeline: Pipeline)
    requires Shaped(pipeline) && CombineWith(dir, names, read, pipeline).Ok?
    ensures LogSamples(dir, names, read, pipeline).Ok?
    ensures var t := CombineWith(dir, names, read, pipeline).value;
      var ss := LogSamples(dir, names, read, pipeline).value;
      && Keyed(t)
      && (forall m, m' :: 0 <= m < m' < |t.columns[0].cells| ==> t.columns[0].cells[m] != t.columns[0].cells[m'])
      && (forall x :: x in t.columns[0].cells <==>
            match FirstNonEmpty(ss) case None => false case Some(k) => x in ss[k].columns[0].cells)
  {
    var ss := LogSamples(dir, names, read, pipeline).value;
    var acc := Accumulate(ss);
    AccumulateKeys(ss);
    PostProcessKeys(acc);
  }

  /** Post-processing keeps the accumulator's variables, each once. */
  lemma PostProcessKeys(acc: Table)
    requires Keyed(acc)
    ensures PostProcess(acc).Ok?
    ensures var keys := PostProcess(acc).value.columns[0].cells;
      && (forall m, m' :: 0 <= m < m' < |keys| ==> keys[m] != keys[m'])
      && (forall x :: x in keys <==> x in KeySet(acc))
  {
    assert Select(acc, Key).value == acc.columns[0].cells;
    DropDuplicatesKeys(Reindexed(acc));
  }

  /** Where the accumulator's value columns begin: at the first sample with rows, or at
      the last sample when none has rows (each empty sample replaces the accumulator). */
  function Start(ss: seq<Table>): (k: nat)
    requires ss != []
    ensures k < |ss|
    ensures FirstNonEmpty(ss).Some? ==> k == FirstNonEmpty(ss).value
  {
    match FirstNonEmpty(ss)
    case Some(k) => k
    case None => |ss| - 1
  }

  /** The names of the samples' value columns, in order. */
  function ValueNames(ss: seq<Table>): (ns: seq<string>)
    requires forall k :: 0 <= k < |ss| ==> SampleShaped(ss[k])
    ensures |ns| == |ss| && forall k :: 0 <= k < |ss| ==> SampleShaped(ss[k]) && ns[k] == ss[k].columns[1].name
  {
    seq(|ss|, k requires 0 <= k < |ss| => assert SampleShaped(ss[k]); ss[k].columns[1].name)
  }

  /** After the loop the accumulator's columns are `variable`, then the value column of
      every sample from `Start` on: earlier samples had no rows and were replaced. */
  lemma {:induction false} AccumulateNames(ss: seq<Table>)
    requires forall k :: 0 <= k < |ss| ==> SampleShaped(ss[k])
    requires ss != []
    ensures Names(Accumulate(ss).columns) == [Key] + ValueNames(ss)[Start(ss)..]
  {
    var n := |ss| - 1;
    var init := ss[..n];
    var s := ss[n];
    var vs := ValueNames(ss);
    var acc := Accumulate(init);
    assert Accumulate(ss) == Step(acc, s);
    AccumulateKeys(init);
    if IsEmpty(acc) {
      assert FirstNonEmpty(ss) == if IsEmpty(s) then None else Some(n);
      assert Start(ss) == n;
      assert Accumulate(ss) == s;
      SampleNames(s);
      assert vs[n..] == [s.columns[1].name];
    } else {
      AccumulateNames(init);
      var k := FirstNonEmpty(init).value;
      assert FirstNonEmpty(ss) == Some(k);
      assert Start(ss) == k == Start(init);
      MergeNames(acc, s, ValueNames(init)[k..]);
      ValueNamesSnoc(ss, k);
    }
  }

  /** Merging a sample appends its value column's name. */
  lemma MergeNames(acc: Table, s: Table, xs: seq<string>)
    requires Keyed(acc) && !IsEmpty(acc) && SampleShaped(s)
    requires Names(acc.columns) == [Key] + xs
    ensures Names(Step(acc, s).columns) == [Key] + (xs + [s.columns[1].name])
  {
    AppendAssoc([Key], xs, [s.columns[1].name]);
  }

  /** The value names from `k` on: those of all but the last sample, then the last's. */
  lemma ValueNamesSnoc(ss: seq<Table>, k: nat)
    requires forall j :: 0 <= j < |ss| ==> SampleShaped(ss[j])
    requires k < |ss|
    ensures ValueNames(ss)[k..] == ValueNames(ss[..|ss| - 1])[k..] + [ss[|ss| - 1].columns[1].name]
  {
    var vs := ValueNames(ss);
    assert ValueNames(ss[..|ss| - 1]) == vs[..|vs| - 1];
    SuffixSnoc(vs, k);
  }

  /** A sample's columns are `variable` and its value column. */
  lemma SampleNames(s: Table)
    requires SampleShaped(s)
    ensures Names(s.columns) == [Key, s.columns[1].name]
  {
  }

  /** No column other than the first is called `variable`: `Without` keeps the rest. */
  lemma WithoutKey(acc: Table)
    requires Keyed(acc)
    requires forall j :: 1 <= j < |acc.columns| ==> acc.columns[j].name != Key
    ensures Without(acc.columns, [Key]) == acc.columns[1..]
  {
    WithoutNone(acc.columns[1..], [Key]);
  }

  lemma {:induction false} WithoutNone(cs: seq<Column>, names: seq<string>)
    requires forall j :: 0 <= j < |cs| ==> cs[j].name !in names
    ensures Without(cs, names) == cs
  {
    if cs != [] {
      WithoutNone(cs[1..], names);
    }
  }

  /** The name a column other than `variable` ends up with: its last path segment, with
      `index` renamed `variable`. */
  function ShortName(name: string): string
  {
    if LastSegment(name) == "index" then Key else LastSegment(name)
  }

  /** Post-processing keeps the columns in order: `variable`, then each other column
      under its last path segment (`index` becoming `variable`). */
  lemma PostProcessNames(acc: Table)
    requires Keyed(acc)
    requires forall j :: 1 <= j < |acc.columns| ==> acc.columns[j].name != Key
    ensures PostProcess(acc).Ok?
    ensures var cs := PostProcess(acc).value.columns;
      && |cs| == |acc.columns| && cs[0].name == Key
      && forall j :: 1 <= j < |cs| ==> cs[j].name == ShortName(acc.columns[j].name)
  {
    assert Key in Names(acc.columns);
    var t := Reindexed(acc);
    ReindexedNames(acc);
    assert PostProcess(acc) == Ok(DropDuplicates(t));
    var cs := DropDuplicates(t).columns;
    forall j | 1 <= j < |cs|
      ensures cs[j].name == t.columns[j].name
    {
      assert Names(cs)[j] == Names(t.columns)[j];
    }
  }

  /** Before `drop_duplicates`: `variable`, then each other column under its short name. */
  lemma ReindexedNames(acc: Table)
    requires Keyed(acc)
    requires forall j :: 1 <= j < |acc.columns| ==> acc.columns[j].name != Key
    ensures Key in Names(acc.columns)
    ensures var cs := Reindexed(acc).columns;
      && |cs| == |acc.columns| && cs[0].name == Key
      && forall j :: 1 <= j < |cs| ==> cs[j].name == ShortName(acc.columns[j].name)
  {
    assert Names(acc.columns)[0] == Key;
    WithoutKey(acc);
    var others := acc.columns[1..];
    var cs := Reindexed(acc).columns;
    assert cs[1..] == RenameIndex(ShortNames(others));
    forall j | 1 <= j < |cs|
      ensures cs[j].name == ShortName(acc.columns[j].name)
    {
      assert cs[j] == cs[1..][j - 1];
      assert others[j - 1] == acc.columns[j];
    }
  }

  /** A `.log` entry's sample column is neither `variable` nor renamed to it, and its
      last segment is the entry. */
  lemma EntryColumn(dir: string, entry: string)
    requires '/' !in entry && EndsWith(entry, LogSuffix)
    ensures LastSegment(Join(dir, entry)) == entry
    ensures Join(dir, entry) != Key && entry != "index"
  {
    LastSegmentOfJoin(dir, entry);
    EndsWithTrans(Join(dir, entry), entry, LogSuffix);
    assert !EndsWith(Key, LogSuffix) && !EndsWith("index", LogSuffix);
  }

  /** An accumulator whose value columns are named by joined `.log` entries comes out
      of post-processing with those entries as its column names. */
  lemma PostProcessEntries(acc: Table, dir: string, entries: seq<string>)
    requires Keyed(acc) && |acc.columns| == 1 + |entries|
    requires forall j :: 1 <= j < |acc.columns| ==> acc.columns[j].name == Join(dir, entries[j - 1])
    requires forall e :: e in entries ==> '/' !in e && EndsWith(e, LogSuffix)
    ensures PostProcess(acc).Ok?
    ensures Names(PostProcess(acc).value.columns) == [Key] + entries
  {
    forall j | 1 <= j < |acc.columns|
      ensures acc.columns[j].name != Key
    {
      assert entries[j - 1] in entries;
      EntryColumn(dir, entries[j - 1]);
    }
    PostProcessNames(acc);
    var cs := PostProcess(acc).value.columns;
    forall j | 1 <= j < |cs|
      ensures cs[j].name == entries[j - 1]
    {
      assert entries[j - 1] in entries;
      EntryColumn(dir, entries[j - 1]);
    }
    NamesFrom(cs, entries);
  }

  lemma NamesFrom(cs: seq<Column>, entries: seq<string>)
    requires |cs| == 1 + |entries| && cs[0].name == Key
    requires forall j :: 1 <= j < |cs| ==> cs[j].name == entries[j - 1]
    ensures Names(cs) == [Key] + entries
  {
  }

  /** The accumulator's value columns are named by the joined entries from `Start` on. */
  lemma AccumulatedEntries(dir: string, logNames: seq<string>, ss: seq<Table>)
    requires ss != [] && |ss| == |logNames|
    requires forall k :: 0 <= k < |ss| ==> SampleShaped(ss[k]) && ss[k].columns[1].name == Join(dir, logNames[k])
    ensures Keyed(Accumulate(ss)) && |Accumulate(ss).columns| == 1 + |logNames[Start(ss)..]|
    ensures forall j :: 1 <= j < |Accumulate(ss).columns| ==>
      Accumulate(ss).columns[j].name == Join(dir, logNames[Start(ss)..][j - 1])
  {
    var cs := Accumulate(ss).columns;
    var st := Start(ss);
    AccumulateNames(ss);
    forall j | 1 <= j < |cs|
      ensures cs[j].name == Join(dir, logNames[st..][j - 1])
    {
      assert Names(cs)[j] == ValueNames(ss)[st + j - 1];
    }
  }

  /** The combined table's columns are `variable`, then one per `.log` entry from the
      first sample with rows on, each named by the entry itself: the joined path, cut
      to its last segment, gives the entry back. */
  lemma CombineNames(dir: string, names: seq<string>, read: string -> Result<Table, Error>, pipeline: Pipeline)
    requires Shaped(pipeline) && CombineWith(dir, names, read, pipeline).Ok?
    requires forall n :: n in names ==> '/' !in n
    ensures LogSamples(dir, names, read, pipeline).Ok?
    ensures var ss := LogSamples(dir, names, read, pipeline).value;
      && ss != []
      && Names(CombineWith(dir, names, read, pipeline).value.columns) == [Key] + LogNames(names)[Start(ss)..]
  {
    var ss := LogSamples(dir, names, read, pipeline).value;
    assert CombineWith(dir, names, read, pipeline) == PostProcess(Accumulate(ss));
    assert ss != [];
    LogNamesMembers(names);
    var entries := LogNames(names)[Start(ss)..];
    AccumulatedEntries(dir, LogNames(names), ss);
    assert forall e :: e in entries ==> e in LogNames(names);
    PostProcessEntries(Accumulate(ss), dir, entries);
  }

  /** The state after the loop has looked at the first `i` names: every sample so far
      was produced, and `acc` is their accumulation. */
  ghost predicate Progress(dir: string, names: seq<string>, read: string -> Result<Table, Error>, pipeline: Pipeline, i: nat, acc: Table)
    requires Shaped(pipeline) && i <= |names|
  {
    var ss := LogSamples(dir, names[..i], read, pipeline);
    ss.Ok? && acc == Accumulate(ss.value)
  }

  /** Lines 136-183 as the loop they are, for a given per-file pipeline: the listing is
      walked in order, each `.log` entry is read and turned into its sample, the first
      sample with rows becomes the accumulator and later ones are left-merged into it,
      and the result is post-processed. */
  method CombineLogsWith(dir: string, names: seq<string>, read: string -> Result<Table, Error>, pipeline: Pipeline)
    returns (r: Result<Table, Error>)
    requires Shaped(pipeline)
    ensures r == CombineWith(dir, names, read, pipeline)
  {
    var acc: Table := EmptyFrame;
    assert Progress(dir, names, read, pipeline, 0, acc) by {
      assert names[..0] == [];
    }
    for i := 0 to |names|
      invariant Progress(dir, names, read, pipeline, i, acc)
    {
      var next := Visit(dir, names, read, pipeline, i, acc);
      if next.Err? {
        return next;
      }
      acc := next.value;
    }
    assert names[..|names|] == names;
    r := PostProcess(acc);
  }

  /** One pass of the loop at lines 150-162: a name without the `.log` suffix is skipped;
      a failing read or pipeline ends the whole run with that error; otherwise the
      sample is absorbed into the accumulator. */
  method Visit(dir: string, names: seq<string>, read: string -> Result<Table, Error>, pipeline: Pipeline,
               i: nat, acc: Table)
    returns (r: Result<Table, Error>)
    requires Shaped(pipeline) && i < |names|
    requires Progress(dir, names, read, pipeline, i, acc)
    ensures r.Err? ==> CombineWith(dir, names, read, pipeline) == r
    ensures r.Ok? ==> Progress(dir, names, read, pipeline, i + 1, r.value)
  {
    ghost var collected := LogSamples(dir, names[..i], read, pipeline).value;
    r := Ok(acc);
    LogSamplesStep(dir, names, read, pipeline, i);
    if EndsWith(names[i], LogSuffix) {
      var path := Join(dir, names[i]);
      var logs := read(path);
      if logs.Err? {
        CollectAbort(names, i, Sampler(dir, read, pipeline));
        return Err(logs.error);
      }
      var sample := pipeline(logs.value, path);
      if sample.Err? {
        CollectAbort(names, i, Sampler(dir, read, pipeline));
        return Err(sample.error);
      }
      var s := sample.value;
      AccumulateStep(collected, s);
      var merged := Absorb(acc, s);
      r := Ok(merged);
    }
  }

  /** Lines 156-162: the sample replaces an empty accumulator and is left-merged into
      any other. */
  method Absorb(acc: Table, s: Table) returns (r: Table)
    requires IsEmpty(acc) ==> acc == EmptyFrame || SampleShaped(acc) || Keyed(acc)
    requires !IsEmpty(acc) ==> Keyed(acc)
    requires SampleShaped(s)
    ensures r == Step(acc, s)
  {
    if IsEmpty(acc) {
      r := s;
    } else {
      r := LeftMerge(acc, s);
    }
  }

  /** `combine_all_logs(dir)` on the listing `names`. */
  method CombineAllLogs(dir: string, names: seq<string>, read: string -> Result<Table, Error>) returns (r: Result<Table, Error>)
    ensures r == CombineAll(dir, names, read)
  {
    SamplePipelineShaped();
    r := CombineLogsWith(dir, names, read, SamplePipeline);
  }

  /** One more entry of the listing: a `.log` entry adds its sample or ends the run
      with its error; any other entry changes nothing. */
  lemma LogSamplesStep(dir: string, names: seq<string>, read: string -> Result<Table, Error>, pipeline: Pipeline, i: nat)
    requires Shaped(pipeline)
    requires i < |names| && LogSamples(dir, names[..i], read, pipeline).Ok?
    ensures LogSamples(dir, names[..i + 1], read, pipeline) ==
      if !EndsWith(names[i], LogSuffix) then LogSamples(dir, names[..i], read, pipeline)
      else match SampleAt(dir, names[i], read, pipeline)
        case Err(e) => Err(e)
        case Ok(s) => Ok(LogSamples(dir, names[..i], read, pipeline).value + [s])
  {
    var f := Sampler(dir, read, pipeline);
    var xs := LogNames(names[..i]);
    LogNamesStep(names, i);
    assert LogSamples(dir, names[..i], read, pipeline) == Collect(xs, f);
    assert LogSamples(dir, names[..i + 1], read, pipeline) == Collect(LogNames(names[..i + 1]), f);
    if EndsWith(names[i], LogSuffix) {
      CollectStep(xs, names[i], f);
      assert f(names[i]) == SampleAt(dir, names[i], read, pipeline);
    } else {
      assert LogNames(names[..i + 1]) == xs + [] == xs;
    }
  }

  lemma LogNamesStep(names: seq<string>, i: nat)
    requires i < |names|
    ensures LogNames(names[..i + 1]) == LogNames(names[..i]) + (if EndsWith(names[i], LogSuffix) then [names[i]] else [])
  {
    assert names[..i + 1][..i] == names[..i];
  }

  lemma CollectStep(xs: seq<string>, x: string, sample: string -> Result<Table, Error>)
    ensures Collect(xs + [x], sample) == match Collect(xs, sample)
      case Err(e) => Err(e)
      case Ok(ss) => match sample(x) case Err(e) => Err(e) case Ok(s) => Ok(ss + [s])
  {
    assert (xs + [x])[..|xs|] == xs;
  }

  /** An entry whose sample fails ends the run with that failure. */
  lemma CollectAbort(names: seq<string>, i: nat, sample: string -> Result<Table, Error>)
    requires i < |names| && Collect(LogNames(names[..i + 1]), sample).Err?
    ensures Collect(LogNames(names), sample) == Collect(LogNames(names[..i + 1]), sample)
  {
    LogNamesSplit(names, i + 1);
    CollectErrPrefix(LogNames(names[..i + 1]), LogNames(names[i + 1..]), sample);
  }

  lemma LogNamesSplit(names: seq<string>, j: nat)
    requires j <= |names|
    ensures LogNames(names) == LogNames(names[..j]) + LogNames(names[j..])
  {
    SplitAt(names, j);
    LogNamesAppend(names[..j], names[j..]);
  }

  lemma {:induction false} LogNamesAppend(a: seq<string>, b: seq<string>)
    ensures LogNames(a + b) == LogNames(a) + LogNames(b)
  {
    if b == [] {
      assert a + b == a;
    } else {
      var n := |b| - 1;
      LogNamesAppend(a, b[..n]);
      var last := if EndsWith(b[n], LogSuffix) then [b[n]] else [];
      assert (a + b)[..|a| + n] == a + b[..n] && (a + b)[|a| + n] == b[n];
      assert LogNames(a + b) == LogNames(a + b[..n]) + last;
      assert LogNames(b) == LogNames(b[..n]) + last;
    }
  }

  lemma {:induction false} CollectErrPrefix(xs: seq<string>, ys: seq<string>, sample: string -> Result<Table, Error>)
    requires Collect(xs, sample).Err?
    ensures Collect(xs + ys, sample) == Collect(xs, sample)
  {
    if ys == [] {
      assert xs + ys == xs;
    } else {
      var n := |ys| - 1;
      CollectErrPrefix(xs, ys[..n], sample);
      assert (xs + ys)[..|xs| + n] == xs + ys[..n];
    }
  }
}
