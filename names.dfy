/** The object-name rule shared by the CLI, the project configuration and
    the GUI records: the pattern `^[a-zA-Z0-9_-]+$` matched against the
    whole string, and the path-traversal test `".." in v or "/" in v or
    "\\" in v`. */
module Names {
  import opened Common

  predicate IsNameChar(c: char)
  {
    ('a' <= c <= 'z') || ('A' <= c <= 'Z') || ('0' <= c <= '9') || c == '_' || c == '-'
  }

  /** `^[a-zA-Z0-9_-]+$` matched as a full match (the pydantic `pattern`
      constraint, whose `$` is the end of the text). */
  predicate MatchesNamePattern(s: string)
  {
    |s| >= 1 && forall i :: 0 <= i < |s| ==> IsNameChar(s[i])
  }

  /** The path-traversal test of the record validators. */
  predicate HasPathTraversal(s: string)
  {
    Contains(s, "..") || '/' in s || '\\' in s
  }

  /** A string without a '.' has no ".." anywhere. */
  lemma {:induction false} NoDotNoDoubleDot(s: string)
    requires forall i :: 0 <= i < |s| ==> s[i] != '.'
    ensures !Contains(s, "..")
    decreases |s|
  {
    if |s| >= 2 {
      assert s[..2][0] == s[0];
    }
    if |s| > 0 {
      NoDotNoDoubleDot(s[1..]);
    }
  }

  /** A name of pattern characters never fails the traversal test, so
      that test can only fire on names the pattern already rejects. */
  lemma PatternExcludesTraversal(s: string)
    requires forall i :: 0 <= i < |s| ==> IsNameChar(s[i])
    ensures !HasPathTraversal(s)
  {
    NoDotNoDoubleDot(s);
  }
}
