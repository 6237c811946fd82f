/** Small shared vocabulary: optional values, error results and the string
    tests Python code writes as `x in s` and `s.startswith(p)`. */
module Common {

  datatype Option<T> = None | Some(value: T)

  /** A Python call that either returns a value or raises; `error` is the
      exception message. */
  datatype Result<T> = Ok(value: T) | Err(error: string)

  /** Python `s.startswith(p)`. */
  predicate StartsWith(s: string, p: string)
  {
    |p| <= |s| && s[..|p|] == p
  }

  /** One differing character is enough to refute a prefix. */
  lemma NotStartsWithAt(s: string, p: string, k: nat)
    requires k < |p| && k < |s| && s[k] != p[k]
    ensures !StartsWith(s, p)
  {
    if |p| <= |s| {
      assert s[..|p|][k] != p[k];
    }
  }

  /** Python `s.endswith(p)`. */
  predicate EndsWith(s: string, p: string)
  {
    |p| <= |s| && s[|s| - |p|..] == p
  }

  /** `Path(dir) / name` on the text of the paths: an empty name leaves
      the directory as it is, and otherwise a separator is added unless
      `dir` already ends in one, as for the root directory "/". */
  function JoinPath(dir: string, name: string): (r: string)
    ensures EndsWith(r, name) && StartsWith(r, dir)
    ensures name == [] ==> r == dir
    ensures name != [] ==> |r| == |dir| + |name| + (if EndsWith(dir, "/") then 0 else 1)
    ensures name != [] ==> (EndsWith(r, "/") <==> EndsWith(name, "/"))
  {
    if name == [] then dir
    else if EndsWith(dir, "/") then dir + name
    else dir + "/" + name
  }

  /** Python `sub in s` for strings. */
  predicate Contains(s: string, sub: string)
    decreases |s|
  {
    StartsWith(s, sub) || (|s| > 0 && Contains(s[1..], sub))
  }

  /** A substring occurrence at a known offset is found by `Contains`. */
  lemma {:induction false} ContainsAt(s: string, sub: string, i: nat)
    requires i + |sub| <= |s| && s[i..i + |sub|] == sub
    ensures Contains(s, sub)
    decreases i
  {
    if i == 0 {
      assert s[..|sub|] == sub;
    } else {
      assert s[1..][i - 1..i - 1 + |sub|] == s[i..i + |sub|];
      ContainsAt(s[1..], sub, i - 1);
    }
  }

  /** Every match found by `Contains` sits at some offset. */
  lemma {:induction false} ContainsWitness(s: string, sub: string) returns (i: nat)
    requires Contains(s, sub)
    ensures i + |sub| <= |s| && s[i..i + |sub|] == sub
    decreases |s|
  {
    if StartsWith(s, sub) {
      i := 0;
    } else {
      var j := ContainsWitness(s[1..], sub);
      assert s[1..][j..j + |sub|] == s[j + 1..j + 1 + |sub|];
      i := j + 1;
    }
  }

  /** The outcome of constructing a pydantic record: the record, or the
      `ValidationError` naming every field whose constraint failed. */
  datatype Validation<T> = Accepted(value: T) | Rejected(fields: seq<string>)

  /** Field names whose check failed, in field order. */
  function Failing(checks: seq<(string, bool)>): (r: seq<string>)
    ensures |r| <= |checks|
    ensures r == [] <==> forall i :: 0 <= i < |checks| ==> checks[i].1
    ensures forall f :: f in r ==> exists i :: 0 <= i < |checks| && checks[i] == (f, false)
  {
    if checks == [] then []
    else
      var rest := Failing(checks[1..]);
      assert forall f :: f in rest ==> exists i :: 0 <= i < |checks| && checks[i] == (f, false) by {
        forall f | f in rest ensures exists i :: 0 <= i < |checks| && checks[i] == (f, false) {
          var j :| 0 <= j < |checks[1..]| && checks[1..][j] == (f, false);
          assert checks[j + 1] == (f, false);
        }
      }
      if checks[0].1 then rest else [checks[0].0] + rest
  }

  /** A failed check always shows up in the error. */
  lemma {:induction false} FailingIncludes(checks: seq<(string, bool)>, i: nat)
    requires i < |checks| && !checks[i].1
    ensures checks[i].0 in Failing(checks)
    decreases i
  {
    if i > 0 {
      FailingIncludes(checks[1..], i - 1);
    }
  }
}
