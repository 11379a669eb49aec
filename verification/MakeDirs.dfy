/** `multi_mkdir`: creating a chain of directories by cutting one path buffer at each slash in turn. */
module MakeDirs {

  const BUFFER_SIZE: nat := 512

  /** A directory, as the names leading to it from the root or the working directory. */
  type Dir = seq<string>

  // ---------------------------------------------------------------------------------------------
  // Paths

  /** The last name of a path, so far as it has been written. */
  function Partial(s: string): string {
    if s == "" || s[|s| - 1] == '/' then "" else Partial(s[..|s| - 1]) + [s[|s| - 1]]
  }

  /** The names of a path that a slash has ended. Empty names do not count. */
  function Closed(s: string): Dir
    decreases |s|, 0
  {
    if s == "" then []
    else if s[|s| - 1] == '/' then Names(s[..|s| - 1])
    else Closed(s[..|s| - 1])
  }

  function Names(s: string): Dir
    decreases |s|, 1
  {
    if Partial(s) == "" then Closed(s) else Closed(s) + [Partial(s)]
  }

  function Path(dir: Dir): string {
    if dir == [] then "" else Path(dir[..|dir| - 1]) + "/" + dir[|dir| - 1]
  }

  predicate IsName(name: string) {
    name != "" && '/' !in name
  }

  lemma {:induction false} SlashThenName(s: string, name: string)
    requires '/' !in name
    ensures Closed(s + "/" + name) == Names(s) && Partial(s + "/" + name) == name
    decreases |name|
  {
    var path := s + "/" + name;
    if name == "" {
      assert path[..|path| - 1] == s;
    } else {
      var n := |name| - 1;
      SlashThenName(s, name[..n]);
      assert path[..|path| - 1] == s + "/" + name[..n];
      assert path[|path| - 1] == name[n];
      assert name[n] in name;
    }
  }

  /** Reading a path back gives the names it was written from. */
  lemma {:induction false} NamesOfPath(dir: Dir)
    requires forall name :: name in dir ==> IsName(name)
    ensures Names(Path(dir)) == dir
    decreases |dir|
  {
    if dir != [] {
      var n := |dir| - 1;
      NamesOfPath(dir[..n]);
      assert dir[n] in dir;
      SlashThenName(Path(dir[..n]), dir[n]);
      assert dir == dir[..n] + [dir[n]];
    }
  }

  lemma {:induction false} NameAlone(name: string)
    requires '/' !in name
    ensures Closed(name) == [] && Partial(name) == name
  {
    if name != "" {
      var n := |name| - 1;
      assert name[n] in name;
      NameAlone(name[..n]);
    }
  }

  /** The last piece of a path does not depend on what comes before a slash in it. */
  lemma {:induction false} PiecesConcat(s: string, t: string)
    ensures Partial(s + "/" + t) == Partial(t) && Closed(s + "/" + t) == Names(s) + Closed(t)
    decreases |t|
  {
    var path := s + "/" + t;
    if t == "" {
      SlashThenName(s, t);
    } else {
      var n := |t| - 1;
      PiecesConcat(s, t[..n]);
      assert path[..|path| - 1] == s + "/" + t[..n] && path[|path| - 1] == t[n];
    }
  }

  /** A slash separates names, wherever it stands; what has none is one name, or nothing. So the names of any
      path, with or without a leading slash, with slashes repeated or at the end, are its pieces between the
      slashes that are not empty. */
  lemma NamesConcat(s: string, t: string)
    ensures Names(s + "/" + t) == Names(s) + Names(t)
    ensures '/' !in t ==> Names(t) == if t == "" then [] else [t]
  {
    PiecesConcat(s, t);
    if '/' !in t { NameAlone(t); }
  }

  // ---------------------------------------------------------------------------------------------
  // The file system

  /** A tree of directories: with a directory it has the one above it. */
  ghost predicate Tree(fs: set<Dir>) {
    [] in fs && forall d :: d in fs && d != [] ==> d[..|d| - 1] in fs
  }

  /** `access(path, 0) == 0` */
  predicate Exists(fs: set<Dir>, path: string) {
    path != "" && Names(path) in fs
  }

  /** `mkdir` succeeds when the parent exists; a failure changes nothing. */
  function Mkdir(fs: set<Dir>, path: string): set<Dir> {
    var dir := Names(path);
    if path != "" && dir != [] && dir[..|dir| - 1] in fs then fs + {dir} else fs
  }

  /** A directory and every one above it. */
  function Chain(dir: Dir): set<Dir> {
    if dir == [] then {[]} else Chain(dir[..|dir| - 1]) + {dir}
  }

  lemma {:induction false} ChainIsPrefixes(dir: Dir, d: Dir)
    ensures d in Chain(dir) <==> d <= dir
    decreases |dir|
  {
    if dir != [] {
      var parent := dir[..|dir| - 1];
      ChainIsPrefixes(parent, d);
      assert dir == parent + [dir[|dir| - 1]];
      assert d <= dir <==> d <= parent || d == dir;
    }
  }

  lemma ChainKeepsTree(fs: set<Dir>, dir: Dir)
    requires Tree(fs)
    ensures Tree(fs + Chain(dir))
  {
  }

  /** What one `access` and `mkdir` of the path `s` do. */
  function Try(fs: set<Dir>, s: string): set<Dir> {
    if Exists(fs, s) then fs else Mkdir(fs, s)
  }

  /** A directory is never made without the one above it. */
  lemma TryKeepsTree(fs: set<Dir>, s: string)
    requires Tree(fs)
    ensures Tree(Try(fs, s)) && fs <= Try(fs, s) <= fs + {Names(s)}
  {
  }

  /** Trying `s` when the names a slash has ended are there: afterwards all its names are. */
  lemma TryPath(before: set<Dir>, s: string)
    requires Tree(before)
    ensures Try(before + Chain(Closed(s)), s) == before + Chain(Names(s))
  {
  }

  lemma ClosedNext(s: string, i: nat)
    requires i < |s|
    ensures Closed(s[..i + 1]) == if s[i] == '/' then Names(s[..i]) else Closed(s[..i])
  {
    assert s[..i + 1][..i] == s[..i];
  }

  // ---------------------------------------------------------------------------------------------
  // The buffer

  function CString(buffer: seq<char>): string {
    if buffer == [] || buffer[0] == '\0' then "" else [buffer[0]] + CString(buffer[1..])
  }

  lemma {:induction false} CStringUpTo(buffer: seq<char>, n: nat)
    requires n < |buffer| && buffer[n] == '\0' && '\0' !in buffer[..n]
    ensures CString(buffer) == buffer[..n]
  {
    if n > 0 {
      assert buffer[..n][0] == buffer[0];
      assert buffer[1..][..n - 1] == buffer[..n][1..];
      CStringUpTo(buffer[1..], n - 1);
    }
  }

  /** The prefixes that end before a slash, among the first `n` characters. */
  function SlashPrefixes(dir: string, n: nat): seq<string>
    requires n <= |dir|
  {
    if n == 0 then []
    else SlashPrefixes(dir, n - 1) + if dir[n - 1] == '/' then [dir[..n - 1]] else []
  }

  /** They are exactly the parts of the path before its slashes. */
  lemma {:induction false} SlashPrefixesExactly(dir: string, n: nat, p: string)
    requires n <= |dir|
    ensures p in SlashPrefixes(dir, n) <==> exists i :: 0 <= i < n && dir[i] == '/' && p == dir[..i]
  {
    if n > 0 {
      SlashPrefixesExactly(dir, n - 1, p);
    }
  }

  /** Shorter ones come first. */
  lemma {:induction false} SlashPrefixesGrow(dir: string, n: nat, i: nat, j: nat)
    requires n <= |dir| && i <= j < |SlashPrefixes(dir, n)|
    ensures |SlashPrefixes(dir, n)[j]| < n
    ensures i < j ==> |SlashPrefixes(dir, n)[i]| < |SlashPrefixes(dir, n)[j]|
  {
    var before := SlashPrefixes(dir, n - 1);
    if j < |before| {
      SlashPrefixesGrow(dir, n - 1, i, j);
    } else if i < |before| {
      SlashPrefixesGrow(dir, n - 1, i, i);
    }
  }

  /** The buffer holds the whole path and is zero after it. */
  ghost predicate Holds(buffer: seq<char>, dir: string) {
    |buffer| == BUFFER_SIZE && |dir| < BUFFER_SIZE
    && buffer[..|dir|] == dir && forall i :: |dir| <= i < BUFFER_SIZE ==> buffer[i] == '\0'
  }

  method CopyIn(dir: string) returns (str: array<char>)
    requires |dir| < BUFFER_SIZE
    ensures fresh(str) && Holds(str[..], dir)
  {
    str := new char[BUFFER_SIZE](_ => '\0');
    for i := 0 to |dir|
      invariant forall j :: 0 <= j < i ==> str[j] == dir[j]
      invariant forall j :: i <= j < BUFFER_SIZE ==> str[j] == '\0'
    {
      str[i] := dir[i];
    }
  }

  /** One iteration at a slash: cut there, try the path before it, put the slash back. */
  method TryPrefix(str: array<char>, dir: string, i: nat, before: set<Dir>) returns (fs: set<Dir>, name: string)
    requires Holds(str[..], dir) && '\0' !in dir && i < |dir| && dir[i] == '/'
    modifies str
    ensures str[..] == old(str[..]) && name == dir[..i]
    ensures fs == Try(before, dir[..i])
  {
    ghost var was := str[..];
    assert was[i] == was[..|dir|][i] == '/';
    str[i] := '\0';
    assert str[..][..i] == was[..|dir|][..i] == dir[..i];
    assert '\0' !in dir[..i];
    CStringUpTo(str[..], i);
    name := CString(str[..]);
    fs := before;
    if !Exists(fs, name) {
      fs := Mkdir(fs, name);
    }
    str[i] := '/';
    assert str[..] == was;
  }

  method TryWhole(str: array<char>, dir: string, before: set<Dir>) returns (fs: set<Dir>, name: string)
    requires Holds(str[..], dir) && '\0' !in dir
    ensures name == dir && fs == Try(before, dir)
  {
    CStringUpTo(str[..], |dir|);
    name := CString(str[..]);
    fs := before;
    if !Exists(fs, name) {
      fs := Mkdir(fs, name);
    }
  }

  lemma NothingYet(fs: set<Dir>, dir: string)
    requires Tree(fs)
    ensures fs + Chain(Closed(dir[..0])) == fs
  {
  }

  lemma NoNames()
    ensures Names("") == Closed("") == []
  {
  }

  /** The whole chain exists afterwards and nothing else is new. The prefixes are tried in order of length,
      and the buffer is whole again after each. */
  method MultiMkdir(dir: string, before: set<Dir>) returns (fs: set<Dir>, tried: seq<string>)
    requires |dir| < BUFFER_SIZE && '\0' !in dir && Tree(before)
    ensures fs == before + Chain(Names(dir)) && Tree(fs)
    ensures tried == SlashPrefixes(dir, |dir|) + if dir == "" then [] else [dir]
  {
    hide Closed, Names, Try, Tree;
    fs, tried := before, [];
    var str := CopyIn(dir);
    NothingYet(before, dir);
    for i := 0 to |dir|
      invariant Holds(str[..], dir)
      invariant fs == before + Chain(Closed(dir[..i]))
      invariant tried == SlashPrefixes(dir, i)
    {
      assert str[..][..|dir|][i] == dir[i];
      ClosedNext(dir, i);
      if str[i] == '/' {
        TryPath(before, dir[..i]);
        var name;
        fs, name := TryPrefix(str, dir, i, fs);
        tried := tried + [name];
      }
    }
    assert dir[..|dir|] == dir;
    TryPath(before, dir);
    if |dir| > 0 {
      var name;
      fs, name := TryWhole(str, dir, fs);
      tried := tried + [name];
    } else {
      NoNames();
    }
    ChainKeepsTree(before, Names(dir));
  }
}
