/** The CLI argument validators of `scan2mesh.cli.validators`. Each one
    returns its argument or raises `typer.BadParameter`, modelled as `Err`
    carrying the exception message. */
module CliValidators {
  import opened Common
  import opened Names

  const MaxObjectNameLength := 100
  const MaxClassId := 9999
  const MaxDimensionMm: real := 10000.0

  /** The system directories a project may not be created under, in the
      order they are tried. */
  const ForbiddenPrefixes: seq<string> := ["/bin", "/sbin", "/usr", "/etc", "/var", "/sys", "/proc"]

  /** What `re.match(r"^[a-zA-Z0-9_-]+$", name)` accepts: in Python's `re`,
      `$` also matches just before a newline that ends the string, so one
      trailing "\n" slips through. */
  predicate PythonReMatchesName(name: string)
  {
    MatchesNamePattern(name)
    || (|name| >= 2 && name[|name| - 1] == '\n' && MatchesNamePattern(name[..|name| - 1]))
  }

  /** `validate_object_name` exactly as written, with Python's `$`. */
  function ValidateObjectNameAsWritten(name: string): (r: Result<string>)
    ensures r.Ok? ==> r.value == name && 1 <= |name| <= MaxObjectNameLength && PythonReMatchesName(name)
  {
    if |name| == 0 then Err("Object name cannot be empty")
    else if |name| > MaxObjectNameLength then Err("Object name must be 100 characters or less")
    else if !PythonReMatchesName(name) then
      Err("Object name can only contain letters, numbers, underscores, and hyphens")
    else if HasPathTraversal(name) then Err("Object name cannot contain path separators")
    else Ok(name)
  }

  /** The trailing-newline hole: "ball\n" passes the validator as written
      although "\n" is not one of the allowed characters. */
  lemma TrailingNewlineAccepted()
    ensures ValidateObjectNameAsWritten("ball\n") == Ok("ball\n")
    ensures !MatchesNamePattern("ball\n")
  {
    var name := "ball\n";
    assert name[..|name| - 1] == "ball";
    assert MatchesNamePattern("ball");
    assert !IsNameChar(name[4]);
    PatternExcludesTraversal("ball");
    assert !Contains(name, "..") by {
      assert !StartsWith(name, "..");
      assert !StartsWith(name[1..], "..");
      assert !StartsWith(name[1..][1..], "..");
      assert !StartsWith(name[1..][1..][1..], "..");
      assert !StartsWith(name[1..][1..][1..][1..], "..");
    }
  }

  /** `validate_object_name` with the pattern matched against the whole
      name, as the pydantic models do: the intended rule. */
  function ValidateObjectName(name: string): (r: Result<string>)
    ensures r.Ok? ==> r.value == name && 1 <= |name| <= MaxObjectNameLength && MatchesNamePattern(name)
    ensures r.Ok? ==> !HasPathTraversal(name)
    ensures r.Err? && |name| == 0 ==> r.error == "Object name cannot be empty"
    ensures r.Err? && |name| > MaxObjectNameLength ==> r.error == "Object name must be 100 characters or less"
  {
    if |name| == 0 then Err("Object name cannot be empty")
    else if |name| > MaxObjectNameLength then Err("Object name must be 100 characters or less")
    else if !MatchesNamePattern(name) then
      Err("Object name can only contain letters, numbers, underscores, and hyphens")
    else if HasPathTraversal(name) then Err("Object name cannot contain path separators")
    else Ok(name)
  }

  /** Every name of 1 to 100 pattern characters is accepted; with the
      contract of `ValidateObjectName` this is an if-and-only-if. The
      explicit path-separator check after the pattern therefore never
      fires: the pattern already excludes "..", "/" and "\". */
  lemma ValidateObjectNameAccepts(name: string)
    requires 1 <= |name| <= MaxObjectNameLength && MatchesNamePattern(name)
    ensures ValidateObjectName(name) == Ok(name)
  {
    PatternExcludesTraversal(name);
  }

  /** The validator as written accepts exactly the names of 1 to 100
      characters that Python's `re.match` accepts. */
  lemma ValidateObjectNameAsWrittenAccepts(name: string)
    requires 1 <= |name| <= MaxObjectNameLength && PythonReMatchesName(name)
    ensures ValidateObjectNameAsWritten(name) == Ok(name)
  {
    if MatchesNamePattern(name) {
      PatternExcludesTraversal(name);
    } else {
      var stem := name[..|name| - 1];
      PatternExcludesTraversal(stem);
      NoTraversalWithNewline(stem);
      assert stem + "\n" == name;
    }
  }

  /** Appending a newline to a traversal-free string keeps it free of
      traversal. */
  lemma {:induction false} NoTraversalWithNewline(s: string)
    requires !HasPathTraversal(s)
    ensures !HasPathTraversal(s + "\n")
    decreases |s|
  {
    var t := s + "\n";
    assert forall c :: c in t ==> c in s || c == '\n';
    if |s| >= 1 {
      if |s| >= 2 {
        assert t[..2] == s[..2];
      } else {
        assert t[1] == '\n';
        NotStartsWithAt(t, "..", 1);
      }
      assert !StartsWith(s, "..");
      assert !Contains(s[1..], "..");
      assert !HasPathTraversal(s[1..]);
      NoTraversalWithNewline(s[1..]);
      assert t[1..] == s[1..] + "\n";
    } else {
      assert !StartsWith(t, "..");
      assert t[1..] == [];
      assert !Contains(t[1..], "..");
    }
  }

  /** The corrected validator accepts a subset of what the one as written
      accepts, and on that subset they agree. */
  lemma CorrectedIsStricter(name: string)
    ensures ValidateObjectName(name).Ok? ==> ValidateObjectNameAsWritten(name) == ValidateObjectName(name)
  {
    if ValidateObjectName(name).Ok? {
      ValidateObjectNameAsWrittenAccepts(name);
    }
  }

  function ValidateClassId(classId: int): (r: Result<int>)
    ensures r.Ok? <==> 0 <= classId <= MaxClassId
    ensures r.Ok? ==> r.value == classId
  {
    if classId < 0 || classId > MaxClassId then Err("Class ID must be between 0 and 9999")
    else Ok(classId)
  }

  /** `validate_dimension`: an absent dimension stays absent; a present one
      must lie in (0, 10000] millimetres. */
  function ValidateDimension(value: Option<real>): (r: Result<Option<real>>)
    ensures value.None? ==> r == Ok(None)
    ensures value.Some? ==> (r.Ok? <==> 0.0 < value.value <= MaxDimensionMm)
    ensures r.Ok? ==> r.value == value
  {
    match value
    case None => Ok(None)
    case Some(v) =>
      if v <= 0.0 then Err("Dimension must be positive")
      else if v > MaxDimensionMm then Err("Dimension must be 10000mm or less")
      else Ok(value)
  }

  /** The first forbidden prefix that `path` starts with, trying them in
      order. */
  function FirstForbiddenPrefix(path: string, prefixes: seq<string>): (r: Option<string>)
    ensures r.None? <==> forall i :: 0 <= i < |prefixes| ==> !StartsWith(path, prefixes[i])
    ensures r.Some? ==> r.value in prefixes && StartsWith(path, r.value)
  {
    if prefixes == [] then None
    else if StartsWith(path, prefixes[0]) then Some(prefixes[0])
    else FirstForbiddenPrefix(path, prefixes[1..])
  }

  /** `validate_project_dir`. `cwd` is the process working directory and
      `resolve` stands for `Path.resolve` (symlinks, "..", relative
      paths), which the model does not evaluate. */
  function ValidateProjectDir(projectDir: Option<string>, cwd: string, resolve: string -> string)
    : (r: Result<string>)
    ensures projectDir.None? ==> r == Ok(JoinPath(cwd, "projects"))
    ensures projectDir.Some? ==>
              (r.Ok? <==> forall i :: 0 <= i < |ForbiddenPrefixes| ==> !StartsWith(resolve(projectDir.value), ForbiddenPrefixes[i]))
    ensures projectDir.Some? && r.Ok? ==> r.value == resolve(projectDir.value)
  {
    match projectDir
    case None => Ok(JoinPath(cwd, "projects"))
    case Some(dir) =>
      var resolved := resolve(dir);
      match FirstForbiddenPrefix(resolved, ForbiddenPrefixes)
      case Some(prefix) => Err("Cannot create projects in " + prefix)
      case None => Ok(resolved)
  }

  /** Without an argument the default directory sits directly under the
      working directory, also when that is the root. */
  lemma DefaultProjectsDir()
    ensures ValidateProjectDir(None, "/", p => p) == Ok("/projects")
    ensures ValidateProjectDir(None, "/home/user", p => p) == Ok("/home/user/projects")
  {
    assert EndsWith("/", "/");
    assert JoinPath("/", "projects") == "/" + "projects" == "/projects";
    assert !EndsWith("/home/user", "/") by { assert "/home/user"[9..] == "r"; }
    assert JoinPath("/home/user", "projects") == "/home/user" + "/" + "projects" == "/home/user/projects";
  }

  /** The prefix test is on the string, not on path components: a sibling
      directory such as "/variables" is refused along with "/var". */
  lemma PrefixTestIsTextual()
    ensures ValidateProjectDir(Some("/variables"), "/home", p => p).Err?
    ensures ValidateProjectDir(Some("/home/user/scans"), "/home", p => p) == Ok("/home/user/scans")
  {
    assert StartsWith("/variables", "/var");
    var home := "/home/user/scans";
    NotStartsWithAt(home, "/bin", 1);
    NotStartsWithAt(home, "/sbin", 1);
    NotStartsWithAt(home, "/usr", 1);
    NotStartsWithAt(home, "/etc", 1);
    NotStartsWithAt(home, "/var", 1);
    NotStartsWithAt(home, "/sys", 1);
    NotStartsWithAt(home, "/proc", 1);
  }
}
