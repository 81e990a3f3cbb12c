/** The slice of pandas the log combiner uses, over an abstract table: ordered columns,
    each a name and one cell per row. A frame may have rows and no columns (pandas keeps
    the row index), so the height is stored. Rows are aligned by position throughout:
    the model takes every frame the pipeline builds to carry the default 0..n-1 row
    index, which is what `json_normalize` gives back in older pandas. */
module Frames {

  import opened Wrappers
  import opened JsonValue

  datatype Column = Column(name: string, cells: seq<Json>)

  datatype Frame = Frame(columns: seq<Column>, height: nat)

  /** Every column has one cell per row. */
  ghost predicate Rectangular(f: Frame)
  {
    forall j :: 0 <= j < |f.columns| ==> |f.columns[j].cells| == f.height
  }

  type Table = f: Frame | Rectangular(f) witness Frame([], 0)

  /** The exceptions the pipeline can raise. */
  datatype Error =
    | KeyError(key: string)                     // a missing column label
    | AttributeError(name: string)              // `df.name` for a column that does not exist
    | MissingRow(index: nat)                    // `series[i]` on a frame without row i
    | UnboundLocal(name: string)                // a local variable read before assignment
    | LengthMismatch(expected: nat, given: nat) // `df.columns = names` with the wrong count
    | ReadError(path: string)                   // the log file could not be read or parsed

  /** `pd.DataFrame()`. */
  const EmptyFrame: Table := Frame([], 0)

  /** `df.empty`: no rows or no columns. */
  predicate IsEmpty(t: Table)
  {
    t.height == 0 || t.columns == []
  }

  function Names(cs: seq<Column>): (ns: seq<string>)
    ensures |ns| == |cs|
    ensures forall j :: 0 <= j < |cs| ==> ns[j] == cs[j].name
  {
    if cs == [] then [] else [cs[0].name] + Names(cs[1..])
  }

  /** The position of the first column called `name`. */
  function FindColumn(cs: seq<Column>, name: string): (r: Option<nat>)
    ensures r.Some? <==> name in Names(cs)
    ensures r.Some? ==> r.value < |cs| && cs[r.value].name == name
    ensures r.Some? ==> forall j :: 0 <= j < r.value ==> cs[j].name != name
  {
    if cs == [] then None
    else if cs[0].name == name then Some(0)
    else match FindColumn(cs[1..], name)
      case None => None
      case Some(j) => Some(j + 1)
  }

  /** `df[name]`: the cells of the first column so called, or `KeyError`. */
  function Select(t: Table, name: string): (r: Result<seq<Json>, Error>)
    ensures r.Ok? <==> name in Names(t.columns)
    ensures r.Err? ==> r.error == KeyError(name)
    ensures r.Ok? ==> |r.value| == t.height
  {
    match FindColumn(t.columns, name)
    case None => Err(KeyError(name))
    case Some(j) => Ok(t.columns[j].cells)
  }

  function Nulls(n: nat): (r: seq<Json>)
    ensures |r| == n && forall i :: 0 <= i < n ==> r[i] == JNull
  {
    seq(n, _ => JNull)
  }

  /** A column extended with nulls to `h` rows, as an outer alignment on the row
      position leaves it. */
  function Pad(c: Column, h: nat): (r: Column)
    requires |c.cells| <= h
    ensures r.name == c.name && |r.cells| == h
    ensures r.cells[..|c.cells|] == c.cells
    ensures forall i :: |c.cells| <= i < h ==> r.cells[i] == JNull
  {
    Column(c.name, c.cells + Nulls(h - |c.cells|))
  }

  lemma PadTwice(c: Column, h: nat, h': nat)
    requires |c.cells| <= h <= h'
    ensures Pad(Pad(c, h), h') == Pad(c, h')
  {
    assert Nulls(h - |c.cells|) + Nulls(h' - h) == Nulls(h' - |c.cells|);
  }

  function PadAll(cs: seq<Column>, h: nat): (r: seq<Column>)
    requires forall j :: 0 <= j < |cs| ==> |cs[j].cells| <= h
    ensures |r| == |cs| && Names(r) == Names(cs)
    ensures forall j :: 0 <= j < |cs| ==> r[j] == Pad(cs[j], h)
  {
    seq(|cs|, j requires 0 <= j < |cs| => Pad(cs[j], h))
  }

  /** `pd.concat([a, b], axis=1)`: the columns of `a` then those of `b`, rows
      aligned by position, the shorter frame padded with nulls. */
  function Concat(a: Table, b: Table): (r: Table)
    ensures r.height == if a.height < b.height then b.height else a.height
    ensures |r.columns| == |a.columns| + |b.columns|
  {
    var h := if a.height < b.height then b.height else a.height;
    var r := Frame(PadAll(a.columns, h) + PadAll(b.columns, h), h);
    assert Rectangular(r);
    r
  }

  /** `Concat` keeps every column of both frames, in order, each padded to the new height. */
  lemma ConcatColumns(a: Table, b: Table)
    ensures var r := Concat(a, b);
      && Names(r.columns) == Names(a.columns) + Names(b.columns)
      && (forall j :: 0 <= j < |a.columns| ==> r.columns[j] == Pad(a.columns[j], r.height))
      && (forall j :: 0 <= j < |b.columns| ==> r.columns[|a.columns| + j] == Pad(b.columns[j], r.height))
  {
    var r := Concat(a, b);
    NamesAppend(PadAll(a.columns, r.height), PadAll(b.columns, r.height));
  }

  /** Column `j` of the left frame, in the concatenation. */
  lemma ConcatLeftAt(a: Table, b: Table, j: nat)
    requires j < |a.columns|
    ensures var r := Concat(a, b);
      |a.columns[j].cells| <= r.height && r.columns[j] == Pad(a.columns[j], r.height)
  {
    assert a.columns[j] in a.columns;
  }

  /** Column `j` of the right frame, in the concatenation. */
  lemma ConcatRightAt(a: Table, b: Table, j: nat)
    requires j < |b.columns|
    ensures var r := Concat(a, b);
      |b.columns[j].cells| <= r.height && r.columns[|a.columns| + j] == Pad(b.columns[j], r.height)
  {
    var h := Concat(a, b).height;
    var left, right := PadAll(a.columns, h), PadAll(b.columns, h);
    assert Concat(a, b).columns == left + right;
    assert (left + right)[|left| + j] == right[j];
    assert b.columns[j] in b.columns;
  }

  /** Concatenating a frame at least as tall leaves that frame's columns as they were. */
  lemma ConcatTaller(a: Table, b: Table)
    requires a.height <= b.height
    ensures var r := Concat(a, b);
      && r.height == b.height
      && Names(r.columns) == Names(a.columns) + Names(b.columns)
      && (forall j :: 0 <= j < |a.columns| ==> r.columns[j] == Pad(a.columns[j], r.height))
      && r.columns[|a.columns|..] == b.columns
  {
    ConcatColumns(a, b);
    var r := Concat(a, b);
    forall j | 0 <= j < |b.columns| ensures r.columns[|a.columns|..][j] == b.columns[j] {
      ConcatRightAt(a, b, j);
      PadFull(b.columns[j], r.height);
    }
  }

  lemma PadFull(c: Column, h: nat)
    requires |c.cells| == h
    ensures Pad(c, h) == c
  {
    assert c.cells + Nulls(0) == c.cells;
  }

  lemma NamesAppend(x: seq<Column>, y: seq<Column>)
    ensures Names(x + y) == Names(x) + Names(y)
  {
  }

  /** The columns whose name is not listed, in their original order. */
  function Without(cs: seq<Column>, names: seq<string>): (r: seq<Column>)
    ensures forall c :: c in r <==> c in cs && c.name !in names
    ensures |r| <= |cs|
  {
    if cs == [] then []
    else (if cs[0].name in names then [] else [cs[0]]) + Without(cs[1..], names)
  }

  /** No column `Without` keeps carries a listed name. */
  lemma WithoutNames(cs: seq<Column>, names: seq<string>)
    ensures forall n :: n in names ==> n !in Names(Without(cs, names))
  {
  }

  /** `df.drop(columns=names)`: every column with a listed name is removed; a listed
      name that is not a column raises `KeyError`. */
  function Drop(t: Table, names: seq<string>): (r: Result<Table, Error>)
    ensures r.Ok? <==> forall n :: n in names ==> n in Names(t.columns)
    ensures r.Err? ==> r.error.KeyError? && r.error.key in names && r.error.key !in Names(t.columns)
    ensures r.Ok? ==> r.value == Frame(Without(t.columns, names), t.height)
  {
    match FirstMissing(names, Names(t.columns))
    case None => Ok(Frame(Without(t.columns, names), t.height))
    case Some(n) => Err(KeyError(n))
  }

  /** The first listed name that is not among `present`. */
  function FirstMissing(names: seq<string>, present: seq<string>): (r: Option<string>)
    ensures r.None? <==> forall n :: n in names ==> n in present
    ensures r.Some? ==> r.value in names && r.value !in present
  {
    if names == [] then None
    else if names[0] !in present then Some(names[0])
    else FirstMissing(names[1..], present)
  }

  /** `series.explode()`: a list becomes its elements, an empty list a single null,
      and any other value stays as it is. */
  function Explode(cells: seq<Json>): (r: seq<Json>)
    ensures |r| == ExplodedCount(cells) >= |cells|
  {
    if cells == [] then []
    else ExplodeCell(cells[0]) + Explode(cells[1..])
  }

  /** The rows one cell explodes to. pandas also treats a dict as list-like and explodes
      it into its keys; the exploded columns here (assets, isolates) hold lists, so an
      object cell is kept whole as one row. */
  function ExplodeCell(v: Json): (r: seq<Json>)
    ensures |r| == RowsFor(v) >= 1
  {
    match v
    case JArr(items) => if items == [] then [JNull] else items
    case _ => [v]
  }

  /** The rows one cell explodes to: max(1, len(list)) for a list, 1 otherwise. */
  function RowsFor(v: Json): nat
  {
    if v.JArr? && |v.items| > 1 then |v.items| else 1
  }

  function ExplodedCount(cells: seq<Json>): nat
  {
    if cells == [] then 0 else RowsFor(cells[0]) + ExplodedCount(cells[1..])
  }

  /** A key path `prefix.key`, or just `key` at the top level. */
  function Dotted(prefix: string, key: string): string
  {
    if prefix == [] then key else prefix + "." + key
  }

  /** The flattening `pd.json_normalize` applies to one record: nested objects become
      dotted key paths, every other value (lists included) is a leaf. */
  function FlattenValue(key: string, v: Json): seq<Field>
    decreases v
  {
    if v.JObj? then FlattenFields(key, v.fields) else [Field(key, v)]
  }

  function FlattenFields(prefix: string, fs: seq<Field>): seq<Field>
    decreases fs
  {
    if fs == [] then []
    else FlattenValue(Dotted(prefix, fs[0].key), fs[0].value) + FlattenFields(prefix, fs[1..])
  }

  /** One record's row: the flattened object, or no fields at all for a value that is
      not an object (the null an empty list exploded to, for one). */
  function Flatten(record: Json): seq<Field>
  {
    if record.JObj? then FlattenFields([], record.fields) else []
  }

  /** Each key once, at its first appearance. */
  function Distinct(ks: seq<string>): (r: seq<string>)
    ensures forall k :: k in r <==> k in ks
    ensures forall i, j :: 0 <= i < j < |r| ==> r[i] != r[j]
  {
    if ks == [] then []
    else
      var d := Distinct(ks[..|ks| - 1]);
      var k := ks[|ks| - 1];
      if k in d then d else d + [k]
  }

  function AllKeys(rows: seq<seq<Field>>): (ks: seq<string>)
    ensures forall i, k :: 0 <= i < |rows| && k in Keys(rows[i]) ==> k in ks
    ensures forall k :: k in ks ==> exists i :: 0 <= i < |rows| && k in Keys(rows[i])
  {
    if rows == [] then [] else Keys(rows[0]) + AllKeys(rows[1..])
  }

  function ValueOrNull(fs: seq<Field>, k: string): Json
  {
    match Get(fs, k)
    case Some(v) => v
    case None => JNull
  }

  /** `pd.json_normalize(records)`: one row per record, one column per key path in
      order of first appearance, null where a record lacks the path. */
  function Normalize(records: seq<Json>): (r: Table)
    ensures r.height == |records|
  {
    var names := Distinct(AllKeys(FlattenAll(records)));
    var cols := seq(|names|, j requires 0 <= j < |names| => NormalizedColumn(records, names[j]));
    var r := Frame(cols, |records|);
    assert Rectangular(r);
    r
  }

  /** What `Normalize` builds: one column per key path, each named once, and in it
      every record's value at that path or null. */
  lemma NormalizeColumns(records: seq<Json>)
    ensures var r := Normalize(records);
      && (forall j, j' :: 0 <= j < j' < |r.columns| ==> r.columns[j].name != r.columns[j'].name)
      && (forall j, i :: 0 <= j < |r.columns| && 0 <= i < |records| ==>
            r.columns[j].cells[i] == ValueOrNull(Flatten(records[i]), r.columns[j].name))
      && (forall i, k :: 0 <= i < |records| && k in Keys(Flatten(records[i])) ==> k in Names(r.columns))
  {
    var names := Distinct(AllKeys(FlattenAll(records)));
    assert Names(Normalize(records).columns) == names;
  }

  function FlattenAll(records: seq<Json>): (rows: seq<seq<Field>>)
    ensures |rows| == |records| && forall i :: 0 <= i < |records| ==> rows[i] == Flatten(records[i])
  {
    seq(|records|, i requires 0 <= i < |records| => Flatten(records[i]))
  }

  function NormalizedColumn(records: seq<Json>, name: string): (c: Column)
    ensures c.name == name && |c.cells| == |records|
    ensures forall i :: 0 <= i < |records| ==> c.cells[i] == ValueOrNull(Flatten(records[i]), name)
  {
    Column(name, seq(|records|, i requires 0 <= i < |records| => ValueOrNull(Flatten(records[i]), name)))
  }

  /** Row `i` of the result is row `idx[i]` of the column. */
  function Gather(c: Column, idx: seq<nat>): (r: Column)
    requires forall i :: 0 <= i < |idx| ==> idx[i] < |c.cells|
    ensures r.name == c.name && |r.cells| == |idx|
    ensures forall i :: 0 <= i < |idx| ==> r.cells[i] == c.cells[idx[i]]
  {
    Column(c.name, seq(|idx|, i requires 0 <= i < |idx| => c.cells[idx[i]]))
  }

  /** Gathering rows that include every row keeps exactly the column's values. */
  lemma GatherSameValues(c: Column, idx: seq<nat>)
    requires forall m :: 0 <= m < |idx| ==> idx[m] < |c.cells|
    requires forall i :: 0 <= i < |c.cells| ==> i in idx
    ensures forall x :: x in Gather(c, idx).cells <==> x in c.cells
  {
    var g := Gather(c, idx).cells;
    forall x | x in c.cells ensures x in g {
      var i :| 0 <= i < |c.cells| && c.cells[i] == x;
      assert i in idx;
      var m :| 0 <= m < |idx| && idx[m] == i;
      assert g[m] == x;
    }
  }

  function GatherAll(t: Table, idx: seq<nat>): (r: Table)
    requires forall i :: 0 <= i < |idx| ==> idx[i] < t.height
    ensures r.height == |idx| && |r.columns| == |t.columns| && Names(r.columns) == Names(t.columns)
    ensures forall j :: 0 <= j < |t.columns| ==> r.columns[j] == Gather(t.columns[j], idx)
  {
    Frame(seq(|t.columns| , j requires 0 <= j < |t.columns| => Gather(t.columns[j], idx)), |idx|)
  }

  /** No row above `i` holds the value of row `i`. */
  predicate IsFirst(keys: seq<Json>, i: nat)
    requires i < |keys|
  {
    forall j :: 0 <= j < i ==> keys[j] != keys[i]
  }

  /** The rows holding the first appearance of their value, ascending. */
  function FirstOccurrences(keys: seq<Json>): (idx: seq<nat>)
    ensures forall m :: 0 <= m < |idx| ==> idx[m] < |keys|
  {
    if keys == [] then []
    else
      var n := |keys| - 1;
      FirstOccurrences(keys[..n]) + (if IsFirst(keys, n) then [n] else [])
  }

  /** `FirstOccurrences` picks exactly the first appearances, in row order. */
  lemma {:induction false} FirstOccurrencesSpec(keys: seq<Json>)
    ensures var idx := FirstOccurrences(keys);
      && (forall m, m' :: 0 <= m < m' < |idx| ==> idx[m] < idx[m'])
      && (forall m :: 0 <= m < |idx| ==> IsFirst(keys, idx[m]))
      && (forall i :: 0 <= i < |keys| && IsFirst(keys, i) ==> i in idx)
  {
    if keys != [] {
      var n := |keys| - 1;
      var init := keys[..n];
      FirstOccurrencesSpec(init);
      var front := FirstOccurrences(init);
      var idx := FirstOccurrences(keys);
      assert idx == front + (if IsFirst(keys, n) then [n] else []);
      assert forall i :: 0 <= i < n ==> (IsFirst(init, i) <==> IsFirst(keys, i));
      assert forall m :: 0 <= m < |front| ==> idx[m] == front[m];
    }
  }

  /** The first occurrences hold every value once. */
  lemma FirstOccurrencesDistinct(keys: seq<Json>)
    ensures var idx := FirstOccurrences(keys);
      && (forall m, m' :: 0 <= m < m' < |idx| ==> keys[idx[m]] != keys[idx[m']])
      && (forall x :: x in keys <==> exists m :: 0 <= m < |idx| && keys[idx[m]] == x)
  {
    var idx := FirstOccurrences(keys);
    FirstOccurrencesSpec(keys);
    forall m, m' | 0 <= m < m' < |idx| ensures keys[idx[m]] != keys[idx[m']] {
      assert IsFirst(keys, idx[m']);
    }
    forall x | x in keys ensures exists m :: 0 <= m < |idx| && keys[idx[m]] == x {
      var i := FirstIndex(keys, x);
      assert i in idx;
      var m :| 0 <= m < |idx| && idx[m] == i;
    }
  }

  /** The position of the first `x`. */
  function FirstIndex(keys: seq<Json>, x: Json): (i: nat)
    requires x in keys
    ensures i < |keys| && keys[i] == x && IsFirst(keys, i)
  {
    if keys[0] == x then 0 else FirstIndex(keys[1..], x) + 1
  }

  /** `df.drop_duplicates(subset=<first column>)`: each row whose first-column value has
      not appeared above it, in order. */
  function DropDuplicates(t: Table): (r: Table)
    requires |t.columns| >= 1
    ensures Names(r.columns) == Names(t.columns)
    ensures r.columns[0].cells == Gather(t.columns[0], FirstOccurrences(t.columns[0].cells)).cells
  {
    GatherAll(t, FirstOccurrences(t.columns[0].cells))
  }

  /** After `DropDuplicates` the first column holds each of its former values exactly once. */
  lemma DropDuplicatesKeys(t: Table)
    requires |t.columns| >= 1
    ensures var keys := DropDuplicates(t).columns[0].cells;
      && (forall m, m' :: 0 <= m < m' < |keys| ==> keys[m] != keys[m'])
      && (forall x :: x in keys <==> x in t.columns[0].cells)
  {
    var cells := t.columns[0].cells;
    var idx := FirstOccurrences(cells);
    FirstOccurrencesDistinct(cells);
    var keys := DropDuplicates(t).columns[0].cells;
    assert forall m :: 0 <= m < |keys| ==> keys[m] == cells[idx[m]];
    forall x | x in cells ensures x in keys {
      var m :| 0 <= m < |idx| && cells[idx[m]] == x;
      assert keys[m] == x;
    }
    forall x | x in keys ensures x in cells {
      var m :| 0 <= m < |keys| && keys[m] == x;
      assert cells[idx[m]] == x;
    }
  }
}
