/** The string operations the scripts rely on: `str.endswith`, `os.path.join`
    and `str.split('/')[-1]`. */
module Text {

  /** `s.endswith(suffix)`. */
  predicate EndsWith(s: string, suffix: string)
  {
    |suffix| <= |s| && s[|s| - |suffix|..] == suffix
  }

  /** `os.path.join(dir, name)` for two POSIX path components. */
  function Join(dir: string, name: string): (p: string)
    ensures EndsWith(p, name)
    ensures name != [] && name[0] == '/' ==> p == name
  {
    if name != [] && name[0] == '/' then name
    else if dir == [] || dir[|dir| - 1] == '/' then dir + name
    else dir + "/" + name
  }

  /** `s.split('/')[-1]`: the text after the last `/`, or all of `s` when it has none. */
  function LastSegment(s: string): (r: string)
    ensures '/' !in r
    ensures EndsWith(s, r)
    ensures '/' !in s ==> r == s
    ensures |r| < |s| ==> s[|s| - |r| - 1] == '/'
  {
    if s == [] then []
    else if s[|s| - 1] == '/' then []
    else
      var init := s[..|s| - 1];
      var front := LastSegment(init);
      var r := front + [s[|s| - 1]];
      assert s == init + [s[|s| - 1]];
      assert s[|s| - |r|..] == init[|init| - |front|..] + [s[|s| - 1]];
      assert '/' !in s ==> '/' !in init by {
        if '/' !in s {
          forall c | c in init ensures c in s { }
        }
      }
      assert |r| < |s| ==> s[|s| - |r| - 1] == init[|init| - |front| - 1];
      r
  }

  /** A suffix of a suffix is a suffix. */
  lemma EndsWithTrans(s: string, t: string, u: string)
    requires EndsWith(s, t) && EndsWith(t, u)
    ensures EndsWith(s, u)
  {
    assert s[|s| - |u|..] == s[|s| - |t|..][|t| - |u|..];
  }

  /** A sample's column ends up named after its file: the last segment of the joined
      path is the directory entry itself. */
  lemma LastSegmentOfJoin(dir: string, name: string)
    requires '/' !in name
    ensures LastSegment(Join(dir, name)) == name
  {
    if dir == [] || (name != [] && name[0] == '/') {
    } else if dir[|dir| - 1] == '/' {
      LastSegmentAfterSlash(dir, name);
    } else {
      LastSegmentAfterSlash(dir + "/", name);
      assert dir + "/" + name == (dir + "/") + name;
    }
  }

  lemma {:induction false} LastSegmentAfterSlash(q: string, name: string)
    requires q != [] && q[|q| - 1] == '/' && '/' !in name
    ensures LastSegment(q + name) == name
  {
    var p := q + name;
    if name == [] {
      assert p == q;
    } else {
      var init := name[..|name| - 1];
      assert p[..|p| - 1] == q + init;
      assert '/' !in init by { forall c | c in init ensures c in name { } }
      LastSegmentAfterSlash(q, init);
      assert name == init + [name[|name| - 1]];
    }
  }
}
