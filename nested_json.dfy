/** `convert_nested_strings_to_json` (combine_logs.py, lines 119-133): every string in a
    JSON document that itself parses as JSON is replaced by its parse, converted in
    turn; object values and list elements are rewritten in place. `json.loads` is a
    parameter: a partial parser that gives `None` where Python raises
    `JSONDecodeError`. */
module NestedJson {

  import opened Wrappers
  import opened JsonValue

  type Parser = string -> Option<Json>

  /** The length of the longest string value in a document (object keys aside). */
  function StrBound(j: Json): nat
    decreases j, 1
  {
    match j
    case JStr(s) => |s|
    case JArr(items) => SeqBound(items)
    case JObj(fields) => FieldsBound(fields)
    case _ => 0
  }

  function SeqBound(items: seq<Json>): (b: nat)
    decreases items, 0
    ensures forall i :: 0 <= i < |items| ==> StrBound(items[i]) <= b
  {
    if items == [] then 0
    else
      var n := |items| - 1;
      var front := SeqBound(items[..n]);
      assert forall i :: 0 <= i < n ==> items[..n][i] == items[i];
      if front < StrBound(items[n]) then StrBound(items[n]) else front
  }

  function FieldsBound(fields: seq<Field>): (b: nat)
    decreases fields, 0
    ensures forall i :: 0 <= i < |fields| ==> StrBound(fields[i].value) <= b
  {
    if fields == [] then 0
    else
      var n := |fields| - 1;
      var front := FieldsBound(fields[..n]);
      assert forall i :: 0 <= i < n ==> fields[..n][i] == fields[i];
      if front < StrBound(fields[n].value) then StrBound(fields[n].value) else front
  }

  /** Every string inside the text of a JSON document is shorter than the text, since
      a string literal carries its quotes: whatever the parser returns has only strings
      shorter than its input. */
  ghost predicate Shrinking(parse: Parser)
  {
    forall s :: parse(s).Some? ==> StrBound(parse(s).value) < |s|
  }

  /** The converted document. */
  function Converted(parse: Parser, j: Json): (r: Json)
    requires Shrinking(parse)
    decreases StrBound(j), j
    ensures j.JArr? ==> r.JArr? && |r.items| == |j.items|
    ensures j.JObj? ==> r.JObj? && Keys(r.fields) == Keys(j.fields)
  {
    match j
    case JStr(s) =>
      (match parse(s)
       case Some(p) => Converted(parse, p)
       case None => j)
    case JArr(items) =>
      JArr(seq(|items|, i requires 0 <= i < |items| => Converted(parse, items[i])))
    case JObj(fields) =>
      var r := JObj(seq(|fields|, i requires 0 <= i < |fields| =>
        Field(fields[i].key, Converted(parse, fields[i].value))));
      assert Keys(r.fields) == Keys(fields);
      r
    case _ => j
  }

  /** No string is left that the parser would accept. */
  ghost predicate Settled(parse: Parser, j: Json)
    decreases j
  {
    match j
    case JStr(s) => parse(s).None?
    case JArr(items) => forall i :: 0 <= i < |items| ==> Settled(parse, items[i])
    case JObj(fields) => forall i :: 0 <= i < |fields| ==> Settled(parse, fields[i].value)
    case _ => true
  }

  /** What the function does at one node, as the source promises it. */
  lemma ConvertedNode(parse: Parser, j: Json)
    requires Shrinking(parse)
    ensures j.JStr? && parse(j.s).None? ==> Converted(parse, j) == j
    ensures j.JStr? && parse(j.s).Some? ==> Converted(parse, j) == Converted(parse, parse(j.s).value)
    ensures j.JArr? ==> forall i :: 0 <= i < |j.items| ==>
              Converted(parse, j).items[i] == Converted(parse, j.items[i])
    ensures j.JObj? ==> forall i :: 0 <= i < |j.fields| ==>
              Converted(parse, j).fields[i] == Field(j.fields[i].key, Converted(parse, j.fields[i].value))
    ensures j.JNull? || j.JBool? || j.JNum? ==> Converted(parse, j) == j
  {
  }

  /** Every string left in the result is one the parser rejects. */
  lemma {:induction false} ConvertedSettled(parse: Parser, j: Json)
    requires Shrinking(parse)
    ensures Settled(parse, Converted(parse, j))
    decreases StrBound(j), j
  {
    match j
    case JStr(s) =>
      if parse(s).Some? {
        ConvertedSettled(parse, parse(s).value);
      }
    case JArr(items) =>
      forall i | 0 <= i < |items|
        ensures Settled(parse, Converted(parse, j).items[i])
      {
        ConvertedSettled(parse, items[i]);
      }
    case JObj(fields) =>
      forall i | 0 <= i < |fields|
        ensures Settled(parse, Converted(parse, j).fields[i].value)
      {
        ConvertedSettled(parse, fields[i].value);
      }
    case _ =>
  }

  /** A document with nothing left to parse comes back unchanged. */
  lemma {:induction false} SettledUnchanged(parse: Parser, j: Json)
    requires Shrinking(parse) && Settled(parse, j)
    ensures Converted(parse, j) == j
    decreases j
  {
    match j
    case JStr(s) =>
    case JArr(items) =>
      forall i | 0 <= i < |items|
        ensures Converted(parse, j).items[i] == items[i]
      {
        SettledUnchanged(parse, items[i]);
      }
    case JObj(fields) =>
      forall i | 0 <= i < |fields|
        ensures Converted(parse, j).fields[i] == fields[i]
      {
        SettledUnchanged(parse, fields[i].value);
      }
    case _ =>
  }

  /** Converting twice is converting once. */
  lemma ConvertIdempotent(parse: Parser, j: Json)
    requires Shrinking(parse)
    ensures Converted(parse, Converted(parse, j)) == Converted(parse, j)
  {
    ConvertedSettled(parse, j);
    SettledUnchanged(parse, Converted(parse, j));
  }

  /** The function as written: a string is parsed and the parse converted; an object's
      values and a list's elements are replaced one at a time, in order. */
  method ConvertNested(parse: Parser, j: Json) returns (r: Json)
    requires Shrinking(parse)
    ensures r == Converted(parse, j)
    decreases StrBound(j), j
  {
    match j
    case JStr(s) =>
      var parsed := parse(s);
      if parsed.Some? {
        r := ConvertNested(parse, parsed.value);
      } else {
        r := j;
      }
    case JArr(items) =>
      var out := items;
      for i := 0 to |items|
        invariant |out| == |items|
        invariant forall k :: 0 <= k < i ==> out[k] == Converted(parse, items[k])
        invariant forall k :: i <= k < |items| ==> out[k] == items[k]
      {
        var v := ConvertNested(parse, out[i]);
        out := out[i := v];
      }
      r := JArr(out);
    case JObj(fields) =>
      var out := fields;
      for i := 0 to |fields|
        invariant |out| == |fields|
        invariant forall k :: 0 <= k < i ==> out[k] == Field(fields[k].key, Converted(parse, fields[k].value))
        invariant forall k :: i <= k < |fields| ==> out[k] == fields[k]
      {
        var v := ConvertNested(parse, out[i].value);
        out := out[i := Field(out[i].key, v)];
      }
      r := JObj(out);
    case _ =>
      r := j;
  }
}
