/** JSON documents as Python's `json` module and pandas hand them around:
    objects keep their keys in insertion order, as Python dicts do. */
module JsonValue {

  import opened Wrappers
  import opened Seqs

  datatype Json =
    | JNull
    | JBool(b: bool)
    | JNum(n: int)
    | JStr(s: string)
    | JArr(items: seq<Json>)
    | JObj(fields: seq<Field>)

  datatype Field = Field(key: string, value: Json)

  /** The keys of an object, in order. */
  function Keys(fs: seq<Field>): (ks: seq<string>)
    ensures |ks| == |fs|
    ensures forall i :: 0 <= i < |fs| ==> ks[i] == fs[i].key
  {
    seq(|fs|, i requires 0 <= i < |fs| => fs[i].key)
  }

  /** `d[k]` on a dict: the value stored under `k`. A dict holds a key once, so when a
      sequence of fields names it twice the last one is the one a dict would keep. */
  function Get(fs: seq<Field>, k: string): (r: Option<Json>)
    ensures r.Some? <==> k in Keys(fs)
    ensures r.Some? ==> exists i :: 0 <= i < |fs| && fs[i] == Field(k, r.value)
  {
    if fs == [] then None
    else match Get(fs[1..], k)
      case Some(v) => Some(v)
      case None => if fs[0].key == k then Some(fs[0].value) else None
  }

  /** `d[k] = v` on a dict: an existing key keeps its place and takes the new value,
      a new key goes at the end. */
  function Assign(fs: seq<Field>, k: string, v: Json): (r: seq<Field>)
    ensures k in Keys(fs) ==> Keys(r) == Keys(fs)
    ensures k !in Keys(fs) ==> r == fs + [Field(k, v)]
    ensures forall i :: 0 <= i < |fs| && fs[i].key != k ==> r[i] == fs[i]
    ensures k in Keys(fs) ==> forall i :: 0 <= i < |fs| && fs[i].key == k ==> r[i] == Field(k, v)
  {
    if k in Keys(fs) then Overwrite(fs, k, v) else fs + [Field(k, v)]
  }

  function Overwrite(fs: seq<Field>, k: string, v: Json): (r: seq<Field>)
    ensures |r| == |fs| && Keys(r) == Keys(fs)
    ensures forall i :: 0 <= i < |fs| ==> r[i] == (if fs[i].key == k then Field(k, v) else fs[i])
  {
    var r := seq(|fs|, i requires 0 <= i < |fs| => if fs[i].key == k then Field(k, v) else fs[i]);
    assert Keys(r) == Keys(fs);
    r
  }

  /** The assignments `d[kvs[0].key] = kvs[0].value`, `d[kvs[1].key] = ...`, made in
      order. */
  function AssignAll(fs: seq<Field>, kvs: seq<Field>): seq<Field>
  {
    if kvs == [] then fs
    else
      var n := |kvs| - 1;
      Assign(AssignAll(fs, kvs[..n]), kvs[n].key, kvs[n].value)
  }

  /** Looking a key up after an assignment. */
  lemma {:induction false} GetAssign(fs: seq<Field>, k: string, v: Json, x: string)
    ensures Get(Assign(fs, k, v), x) == if x == k then Some(v) else Get(fs, x)
  {
    if k in Keys(fs) {
      GetOverwrite(fs, k, v, x);
    } else {
      GetAppend(fs, Field(k, v), x);
    }
  }

  lemma {:induction false} GetAppend(fs: seq<Field>, f: Field, x: string)
    ensures Get(fs + [f], x) == if f.key == x then Some(f.value) else Get(fs, x)
  {
    if fs == [] {
      assert [f][1..] == [];
    } else {
      assert (fs + [f])[1..] == fs[1..] + [f];
      GetAppend(fs[1..], f, x);
    }
  }

  lemma {:induction false} GetOverwrite(fs: seq<Field>, k: string, v: Json, x: string)
    ensures Get(Overwrite(fs, k, v), x) ==
              if x != k then Get(fs, x) else if k in Keys(fs) then Some(v) else None
  {
    if fs != [] {
      GetOverwrite(fs[1..], k, v, x);
      assert Overwrite(fs, k, v)[1..] == Overwrite(fs[1..], k, v);
      assert k in Keys(fs) <==> fs[0].key == k || k in Keys(fs[1..]) by {
        assert Keys(fs) == [fs[0].key] + Keys(fs[1..]);
      }
    }
  }

  /** `d[k]` on a dict that holds `k` once. */
  lemma GetUnique(fs: seq<Field>, k: string, i: nat)
    requires i < |fs| && fs[i].key == k
    requires forall j :: 0 <= j < |fs| && j != i ==> fs[j].key != k
    ensures Get(fs, k) == Some(fs[i].value)
  {
    assert Keys(fs)[i] == k;
  }

  /** An assignment replaces the entries of its key and leaves the others where they
      are (a new key goes after them). */
  lemma AssignAt(fs: seq<Field>, k: string, v: Json, i: nat)
    requires i < |fs|
    ensures |Assign(fs, k, v)| >= |fs|
    ensures Assign(fs, k, v)[i] == if fs[i].key == k then Field(k, v) else fs[i]
  {
  }

  /** Assigning a key twice is assigning the second value. */
  lemma AssignTwice(fs: seq<Field>, k: string, v: Json, w: Json)
    ensures Assign(Assign(fs, k, v), k, w) == Assign(fs, k, w)
  {
    var once := Assign(fs, k, v);
    if k in Keys(fs) {
      forall i | 0 <= i < |fs|
        ensures Assign(once, k, w)[i] == Assign(fs, k, w)[i]
      {
        AssignAt(fs, k, v, i);
        AssignAt(once, k, w, i);
        AssignAt(fs, k, w, i);
      }
    } else {
      assert k in Keys(once) by {
        assert Keys(once)[|fs|] == k;
      }
      forall i | 0 <= i < |once|
        ensures Assign(once, k, w)[i] == (fs + [Field(k, w)])[i]
      {
        AssignAt(once, k, w, i);
        if i < |fs| {
          assert fs[i].key == Keys(fs)[i];
        }
      }
    }
  }

  /** Two assignments to present keys, repeated with new values, are the second pair
      alone. */
  lemma AssignPairAgain(fs: seq<Field>, k1: string, k2: string, a: Json, b: Json, c: Json, d: Json)
    requires k1 in Keys(fs) && k2 in Keys(fs)
    ensures Assign(Assign(Assign(Assign(fs, k1, a), k2, b), k1, c), k2, d) == Assign(Assign(fs, k1, c), k2, d)
  {
    var f1 := Assign(fs, k1, a);
    var f2 := Assign(f1, k2, b);
    var f3 := Assign(f2, k1, c);
    var f4 := Assign(f3, k2, d);
    var g1 := Assign(fs, k1, c);
    var g2 := Assign(g1, k2, d);
    assert Keys(f1) == Keys(fs) && Keys(f2) == Keys(fs) && Keys(f3) == Keys(fs) && Keys(f4) == Keys(fs);
    assert Keys(g1) == Keys(fs) && Keys(g2) == Keys(fs);
    forall i | 0 <= i < |fs|
      ensures f4[i] == g2[i]
    {
      AssignAt(fs, k1, a, i);
      AssignAt(f1, k2, b, i);
      AssignAt(f2, k1, c, i);
      AssignAt(f3, k2, d, i);
      AssignAt(fs, k1, c, i);
      AssignAt(g1, k2, d, i);
    }
  }

  /** One more assignment. */
  lemma AssignAllSnoc(fs: seq<Field>, kvs: seq<Field>, j: nat)
    requires j < |kvs|
    ensures AssignAll(fs, kvs[..j + 1]) == Assign(AssignAll(fs, kvs[..j]), kvs[j].key, kvs[j].value)
  {
    assert kvs[..j + 1][..j] == kvs[..j];
  }

  /** A key of an object is among its keys. */
  lemma KeyAt(fs: seq<Field>, i: nat)
    requires i < |fs|
    ensures fs[i].key in Keys(fs)
  {
    assert Keys(fs)[i] == fs[i].key;
  }

  /** Looking a key up after the assignments: the last value assigned to it, or what
      it held before if none was. */
  lemma {:induction false} GetAssignAll(fs: seq<Field>, kvs: seq<Field>, x: string)
    ensures Get(AssignAll(fs, kvs), x) == if Get(kvs, x).Some? then Get(kvs, x) else Get(fs, x)
  {
    if kvs != [] {
      var n := |kvs| - 1;
      var prev := AssignAll(fs, kvs[..n]);
      assert AssignAll(fs, kvs) == Assign(prev, kvs[n].key, kvs[n].value);
      GetAssign(prev, kvs[n].key, kvs[n].value, x);
      Snoc(kvs);
      GetAppend(kvs[..n], kvs[n], x);
      if kvs[n].key != x {
        GetAssignAll(fs, kvs[..n], x);
      }
    }
  }

  /** Each entry after the assignments: the last value assigned to its key, or the
      entry itself. */
  lemma {:induction false} AssignAllAt(fs: seq<Field>, kvs: seq<Field>, i: nat)
    requires i < |fs|
    ensures |AssignAll(fs, kvs)| >= |fs|
    ensures AssignAll(fs, kvs)[i] ==
              match Get(kvs, fs[i].key) case Some(v) => Field(fs[i].key, v) case None => fs[i]
  {
    if kvs != [] {
      var n := |kvs| - 1;
      AssignAllAt(fs, kvs[..n], i);
      AssignAt(AssignAll(fs, kvs[..n]), kvs[n].key, kvs[n].value, i);
      Snoc(kvs);
      GetAppend(kvs[..n], kvs[n], fs[i].key);
    }
  }

  /** Assignments to keys already present add no key and move none. */
  lemma {:induction false} AssignAllKeys(fs: seq<Field>, kvs: seq<Field>)
    requires forall j :: 0 <= j < |kvs| ==> kvs[j].key in Keys(fs)
    ensures Keys(AssignAll(fs, kvs)) == Keys(fs)
  {
    if kvs != [] {
      var n := |kvs| - 1;
      AssignAllKeys(fs, kvs[..n]);
    }
  }

  /** Assignments to present keys, followed by assignments that cover every one of
      their keys, leave only the second values. */
  lemma AssignAllAgain(fs: seq<Field>, first: seq<Field>, second: seq<Field>)
    requires forall j :: 0 <= j < |first| ==> first[j].key in Keys(fs)
    requires forall j :: 0 <= j < |second| ==> second[j].key in Keys(fs)
    requires forall k :: k in Keys(first) ==> k in Keys(second)
    ensures AssignAll(AssignAll(fs, first), second) == AssignAll(fs, second)
  {
    var once := AssignAll(fs, first);
    var twice := AssignAll(once, second);
    var direct := AssignAll(fs, second);
    AssignAllKeys(fs, first);
    AssignAllKeys(once, second);
    AssignAllKeys(fs, second);
    assert |twice| == |fs| == |direct| by {
      assert |Keys(twice)| == |Keys(fs)| == |Keys(direct)|;
    }
    forall i | 0 <= i < |fs|
      ensures twice[i] == direct[i]
    {
      AssignAllAt(fs, first, i);
      AssignAllAt(once, second, i);
      AssignAllAt(fs, second, i);
    }
  }
}
