/** ProjectAnalyzer.should_ignore (analyze_project.py): a path is skipped
    when one of its components is an ignored directory name, or when the
    path ends with one of the ignored file suffixes. The separator `os.sep`
    is a parameter. */
module AnalyzeProject {
  import opened PyStr

  /** `self.ignored_dirs`: matched against whole path components. */
  const IGNORED_DIRS: set<string> :=
    {"__pycache__", ".git", ".venv", "venv", "env", ".ipynb_checkpoints", ".jupyter"}

  /** `self.ignored_files`: matched as suffixes of the whole path. */
  const IGNORED_FILES: set<string> :=
    {".pyc", ".pyo", ".pyd", ".so", ".dll", ".html", ".md", ".pdf", "analyze_project.py",
     ".gitignore", ".log", "hotel_data.json", "project_structure.json"}

  predicate IgnoredPart(parts: seq<string>) {
    exists k | 0 <= k < |parts| :: parts[k] in IGNORED_DIRS
  }

  predicate IgnoredSuffix(path: string) {
    exists ext | ext in IGNORED_FILES :: EndsWith(path, ext)
  }

  /** `should_ignore(path)`. */
  function ShouldIgnore(path: string, sep: char): bool {
    IgnoredPart(SplitOn(path, sep)) || IgnoredSuffix(path)
  }

  /** `path[i..j]` is a component: it is delimited by the ends of the path
      or by separators, and holds no separator itself. */
  predicate Segment(s: string, c: char, i: int, j: int) {
    0 <= i <= j <= |s| && (i == 0 || s[i - 1] == c) && (j == |s| || s[j] == c) && c !in s[i..j]
  }

  /** A path is ignored exactly when some component, read off the path
      itself, is an ignored directory name, or it ends with an ignored
      suffix. */
  lemma ShouldIgnoreSpec(path: string, sep: char)
    ensures ShouldIgnore(path, sep) <==>
      (exists i, j | Segment(path, sep, i, j) :: path[i..j] in IGNORED_DIRS) || IgnoredSuffix(path)
  {
    var parts := SplitOn(path, sep);
    if IgnoredPart(parts) {
      var k :| 0 <= k < |parts| && parts[k] in IGNORED_DIRS;
      PieceIsSegment(path, sep, parts[k]);
    }
    if exists i, j | Segment(path, sep, i, j) :: path[i..j] in IGNORED_DIRS {
      var i, j :| Segment(path, sep, i, j) && path[i..j] in IGNORED_DIRS;
      SegmentIsPiece(path, sep, i, j);
      var k :| 0 <= k < |parts| && parts[k] == path[i..j];
    }
  }

  /** Every piece of `s.split(c)` is a segment of `s`. */
  lemma {:induction false} PieceIsSegment(s: string, c: char, w: string)
    requires w in SplitOn(s, c)
    ensures exists i, j | Segment(s, c, i, j) :: s[i..j] == w
    decreases |s|
  {
    var k := IndexOf(s, c, 0);
    if k == |s| {
      assert SplitOn(s, c) == [s];
      assert s[0..|s|] == s;
      assert Segment(s, c, 0, |s|);
    } else {
      var rest := s[k + 1..];
      assert SplitOn(s, c) == [s[..k]] + SplitOn(rest, c);
      if w == s[..k] {
        assert s[..k] == s[0..k];
        assert Segment(s, c, 0, k);
      } else {
        PieceIsSegment(rest, c, w);
        var i, j :| Segment(rest, c, i, j) && rest[i..j] == w;
        SegmentShift(s, c, k, i, j);
      }
    }
  }

  /** Every segment of `s` is a piece of `s.split(c)`. */
  lemma {:induction false} SegmentIsPiece(s: string, c: char, i: int, j: int)
    requires Segment(s, c, i, j)
    ensures s[i..j] in SplitOn(s, c)
    decreases |s|
  {
    var k := IndexOf(s, c, 0);
    if k == |s| {
      WholeIsPiece(s, c, i, j);
    } else if i == 0 {
      FirstIsPiece(s, c, k, j);
    } else {
      var rest := s[k + 1..];
      SegmentAfter(s, c, k, i, j);
      SegmentIsPiece(rest, c, i - k - 1, j - k - 1);
      PieceOfRest(s, c, k, s[i..j]);
    }
  }

  /** Without a separator the only segment is the only piece. */
  lemma WholeIsPiece(s: string, c: char, i: int, j: int)
    requires IndexOf(s, c, 0) == |s| && Segment(s, c, i, j)
    ensures s[i..j] in SplitOn(s, c)
  {
    assert s[0..|s|] == s;
    OnlySegment(s, c, i, j);
    assert SplitOn(s, c) == [s];
  }

  /** The segment that starts the text is the first piece. */
  lemma FirstIsPiece(s: string, c: char, k: int, j: int)
    requires k == IndexOf(s, c, 0) && k < |s| && Segment(s, c, 0, j)
    ensures s[0..j] in SplitOn(s, c)
  {
    assert s[..k] == s[0..k];
    SegmentSplit(s, c, k, 0, j);
    assert SplitOn(s, c)[0] == s[..k];
  }

  /** A segment that does not start the text lies after its first separator. */
  lemma SegmentAfter(s: string, c: char, k: int, i: int, j: int)
    requires 0 <= k < |s| && s[k] == c && c !in s[..k]
    requires Segment(s, c, i, j) && i > 0
    ensures k + 1 <= i && Segment(s[k + 1..], c, i - k - 1, j - k - 1)
    ensures s[k + 1..][i - k - 1..j - k - 1] == s[i..j]
  {
    SegmentSplit(s, c, k, i, j);
    SegmentShift(s, c, k, i - k - 1, j - k - 1);
  }

  /** The pieces of the text after the first separator are pieces of the
      whole text. */
  lemma PieceOfRest(s: string, c: char, k: int, w: string)
    requires k == IndexOf(s, c, 0) && k < |s|
    requires w in SplitOn(s[k + 1..], c)
    ensures w in SplitOn(s, c)
  {
    assert SplitOn(s, c) == [s[..k]] + SplitOn(s[k + 1..], c);
  }

  /** Without a separator the whole text is the only segment. */
  lemma OnlySegment(s: string, c: char, i: int, j: int)
    requires c !in s && Segment(s, c, i, j)
    ensures i == 0 && j == |s|
  {
  }

  /** A segment of the text after the first separator at `k` is a segment
      of the whole text, shifted by `k + 1`. */
  lemma SegmentShift(s: string, c: char, k: int, i: int, j: int)
    requires 0 <= k < |s| && s[k] == c
    requires 0 <= i <= j <= |s| - k - 1
    ensures Segment(s[k + 1..], c, i, j) <==> Segment(s, c, i + k + 1, j + k + 1)
    ensures s[k + 1..][i..j] == s[i + k + 1..j + k + 1]
  {
    var rest := s[k + 1..];
    assert rest[i..j] == s[i + k + 1..j + k + 1];
    if i > 0 {
      assert rest[i - 1] == s[i + k];
    }
    if j < |rest| {
      assert rest[j] == s[j + k + 1];
    }
  }

  /** With the first separator at `k`, a segment is either the first piece
      or lies after `k`. */
  lemma SegmentSplit(s: string, c: char, k: int, i: int, j: int)
    requires 0 <= k < |s| && s[k] == c && c !in s[..k]
    requires Segment(s, c, i, j)
    ensures i == 0 ==> j == k
    ensures i > 0 ==> k + 1 <= i
  {
  }

  /** Anything below an ignored directory is ignored. */
  lemma UnderIgnoredDir(dir: string, rest: string, sep: char)
    requires dir in IGNORED_DIRS && sep !in dir
    ensures ShouldIgnore(dir + [sep] + rest, sep)
  {
    var path := dir + [sep] + rest;
    assert path[0..|dir|] == dir;
    assert Segment(path, sep, 0, |dir|);
    ShouldIgnoreSpec(path, sep);
  }

  /** A component must equal an ignored name exactly: "venv2" is kept. */
  lemma SimilarDirKept(path: string)
    requires path == "src/venv2/app.txt"
    ensures !ShouldIgnore(path, '/')
  {
    var parts := ["src", "venv2", "app.txt"];
    JoinedParts(path, parts);
    KeptParts(parts);
    KeptByLastChar(path);
  }

  lemma JoinedParts(path: string, parts: seq<string>)
    requires path == "src/venv2/app.txt" && parts == ["src", "venv2", "app.txt"]
    ensures SplitOn(path, '/') == parts
  {
    assert parts[1..][1..] == ["app.txt"];
    assert JoinOn(parts[1..], '/') == "venv2/app.txt";
    assert path == JoinOn(parts, '/');
    SplitOnJoin(parts, '/');
  }

  lemma KeptParts(parts: seq<string>)
    requires parts == ["src", "venv2", "app.txt"]
    ensures !IgnoredPart(parts)
  {
    forall k | 0 <= k < |parts| ensures parts[k] !in IGNORED_DIRS {
      KeptDirName(parts[k]);
    }
  }

  /** The ignored names other than "venv" and "env" start with '_' or '.'. */
  lemma KeptDirName(w: string)
    requires w != [] && w[0] != '_' && w[0] != '.' && w != "venv" && w != "env"
    ensures w !in IGNORED_DIRS
  {
    forall d | d in IGNORED_DIRS && d != "venv" && d != "env" ensures d[0] == '_' || d[0] == '.' {
    }
  }

  /** Every ignored suffix ends in one of "cdefglnoy", so a path ending in
      any other character has none of them. */
  lemma KeptByLastChar(path: string)
    requires path != [] && path[|path| - 1] !in "cdefglnoy"
    ensures !IgnoredSuffix(path)
  {
    forall ext | ext in IGNORED_FILES ensures !EndsWith(path, ext) {
      assert ext[|ext| - 1] in "cdefglnoy";
    }
  }

  /** The suffixes apply to the whole path, so any file whose name ends in
      "analyze_project.py" is skipped, not just the analyser itself. */
  lemma SuffixMatchesLongerName(path: string)
    requires path == "tools/my_analyze_project.py"
    ensures ShouldIgnore(path, '/')
  {
    assert EndsWith(path, "analyze_project.py");
  }

  /** The suffix test is case-sensitive: "README.MD" is kept. */
  lemma UpperCaseSuffixKept(path: string)
    requires path == "README.MD"
    ensures !ShouldIgnore(path, '/')
  {
    assert path == JoinOn([path], '/');
    SplitOnJoin([path], '/');
    KeptByLastChar(path);
  }
}
