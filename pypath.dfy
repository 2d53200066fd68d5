/** Path handling the tool relies on: `os.path.split`, `os.path.join` (POSIX
    flavour) and the `name`, `parent`, `stem`, `suffix`, `/` and `with_name`
    of `pathlib` on normalised POSIX paths. */
module PyPath {
  import opened PyStr

  /** `s.rfind(c)`: the index of the last `c`, or -1. */
  function RFind(s: string, c: char): (i: int)
    ensures -1 <= i < |s|
    ensures i >= 0 ==> s[i] == c
    ensures forall j :: i < j < |s| ==> s[j] != c
  {
    if s == [] then -1 else if s[|s| - 1] == c then |s| - 1 else RFind(s[..|s| - 1], c)
  }

  predicate AllSlashes(s: string) { forall c :: c in s ==> c == '/' }

  function RStripSlashes(s: string): (r: string)
    ensures |r| <= |s| && r == s[..|r|]
    ensures r != [] ==> r[|r| - 1] != '/'
  {
    if s != [] && s[|s| - 1] == '/' then RStripSlashes(s[..|s| - 1]) else s
  }

  /** `os.path.split(p)`: the text up to the last slash (trailing slashes
      removed unless it is all slashes) and the text after it. */
  function OsSplit(p: string): (string, string)
  {
    var i := RFind(p, '/') + 1;
    var head := p[..i];
    (if head != [] && !AllSlashes(head) then RStripSlashes(head) else head, p[i..])
  }

  /** `os.path.join(a, b)` for two components. */
  function OsJoin(a: string, b: string): string
  {
    if b != [] && b[0] == '/' then b
    else if a == [] || a[|a| - 1] == '/' then a + b
    else a + "/" + b
  }

  /** Splitting a joined directory and file name gives both back. */
  lemma SplitOfJoin(dir: string, name: string)
    requires dir != [] && dir[|dir| - 1] != '/'
    requires name == [] || name[0] != '/'
    requires '/' !in name
    ensures OsSplit(OsJoin(dir, name)) == (dir, name)
  {
    var p := OsJoin(dir, name);
    assert p == dir + "/" + name;
    assert p[|dir|] == '/';
    assert forall k :: |dir| < k < |p| ==> p[k] == name[k - |dir| - 1];
    RFindIs(p, '/', |dir|);
    var i := |dir|;
    assert p[..i + 1] == dir + "/";
    assert !AllSlashes(dir + "/") by {
      assert dir[|dir| - 1] in dir + "/";
    }
    RStripOne(dir);
    assert p[i + 1..] == name;
  }

  /** Joining one directory with two different names that are not absolute
      gives two different paths. */
  lemma JoinApart(dir: string, a: string, b: string)
    requires a != b
    requires a != [] && a[0] != '/' && b != [] && b[0] != '/'
    ensures OsJoin(dir, a) != OsJoin(dir, b)
  {
    var prefix := if dir == [] || dir[|dir| - 1] == '/' then dir else dir + "/";
    assert OsJoin(dir, a) == prefix + a && OsJoin(dir, b) == prefix + b;
    assert (prefix + a)[|prefix|..] == a && (prefix + b)[|prefix|..] == b;
  }

  lemma RFindIs(s: string, c: char, j: int)
    requires 0 <= j < |s| && s[j] == c
    requires forall k :: j < k < |s| ==> s[k] != c
    ensures RFind(s, c) == j
  {
  }

  lemma RStripOne(dir: string)
    requires dir != [] && dir[|dir| - 1] != '/'
    ensures RStripSlashes(dir + "/") == dir
  {
    assert (dir + "/")[..|dir|] == dir;
  }

  /** The tail of a split never holds a slash. */
  lemma SplitTailHasNoSlash(p: string)
    ensures '/' !in OsSplit(p).1
  {
    var i := RFind(p, '/') + 1;
    var t := p[i..];
    assert forall k :: 0 <= k < |t| ==> t[k] == p[i + k] && t[k] != '/';
  }

  // ---------------------------------------------------------------------------
  // pathlib on normalised POSIX paths (no empty, `.` or doubled components
  // and no trailing slash except for the root)
  // ---------------------------------------------------------------------------

  /** `Path(p).name`. */
  function Name(p: string): (n: string)
    ensures '/' !in n
  {
    SplitTailHasNoSlash(p);
    OsSplit(p).1
  }

  /** `Path(p).parent` as text: `.` for a bare name, `/` for a child of the root. */
  function Parent(p: string): string
  {
    var i := RFind(p, '/');
    if i < 0 then "." else if i == 0 then "/" else p[..i]
  }

  /** `Path(dir) / name` as text. */
  function Child(dir: string, name: string): string
  {
    if dir == "." then name
    else if dir != [] && dir[|dir| - 1] == '/' then dir + name
    else dir + "/" + name
  }

  predicate NormalDir(dir: string)
  {
    dir == "." || dir == "/" || (dir != [] && dir[|dir| - 1] != '/')
  }

  /** A child's name and parent are the name and directory it was built from. */
  lemma ChildParts(dir: string, name: string)
    requires NormalDir(dir)
    requires name != [] && '/' !in name
    ensures Name(Child(dir, name)) == name
    ensures Parent(Child(dir, name)) == dir
  {
    var p := Child(dir, name);
    if dir == "." {
      NoSlashRFind(name);
    } else {
      var prefix := if dir == "/" then "/" else dir + "/";
      assert p == prefix + name;
      assert p[|prefix| - 1] == '/';
      assert forall k :: |prefix| - 1 < k < |p| ==> p[k] == name[k - |prefix|];
      RFindIs(p, '/', |prefix| - 1);
      var i := |prefix| - 1;
      assert p[i + 1..] == name;
      assert dir != "/" ==> p[..i] == dir;
    }
  }

  /** Two different names in one directory are two different paths. */
  lemma ChildApart(dir: string, a: string, b: string)
    requires a != b
    ensures Child(dir, a) != Child(dir, b)
  {
    var prefix := if dir == "." then "" else if dir != [] && dir[|dir| - 1] == '/' then dir else dir + "/";
    assert Child(dir, a) == prefix + a && Child(dir, b) == prefix + b;
    assert (prefix + a)[|prefix|..] == a && (prefix + b)[|prefix|..] == b;
  }

  /** A child's path ends the way its name does. */
  lemma ChildEndsWith(dir: string, name: string, suffix: string)
    requires EndsWith(name, suffix)
    ensures EndsWith(Child(dir, name), suffix)
  {
    var p := Child(dir, name);
    var prefix := p[..|p| - |name|];
    assert p == prefix + name;
    assert p[|p| - |suffix|..] == name[|name| - |suffix|..];
  }

  /** A name without slashes put in a normal directory: its name, its
      directory and the way it ends read back. */
  lemma ChildFacts(dir: string, name: string, suffix: string)
    requires NormalDir(dir) && name != [] && '/' !in name && EndsWith(name, suffix)
    ensures Name(Child(dir, name)) == name && Parent(Child(dir, name)) == dir
    ensures EndsWith(Child(dir, name), suffix)
  {
    ChildParts(dir, name);
    ChildEndsWith(dir, name, suffix);
  }

  lemma NoSlashRFind(s: string)
    requires '/' !in s
    ensures RFind(s, '/') == -1
  {
    if s != [] {
      assert s[..|s| - 1] <= s;
      NoSlashRFind(s[..|s| - 1]);
    }
  }

  /** The index at which the suffix of a file name starts, or -1 when it has none. */
  function SuffixStart(name: string): int
  {
    var i := RFind(name, '.');
    if 0 < i < |name| - 1 then i else -1
  }

  /** `Path(name).suffix`: the final `.ext`, or empty. */
  function Suffix(name: string): string
  {
    var i := SuffixStart(name);
    if i < 0 then "" else name[i..]
  }

  /** `Path(name).stem`: the name without its final suffix. */
  function Stem(name: string): string
  {
    var i := SuffixStart(name);
    if i < 0 then name else name[..i]
  }

  /** A stem and a suffix put back together give the name; a suffix is empty or
      a dot followed by at least one character, none of them a dot. */
  lemma StemSuffix(name: string)
    ensures Stem(name) + Suffix(name) == name
    ensures Suffix(name) == "" || (|Suffix(name)| >= 2 && Suffix(name)[0] == '.' && '.' !in Suffix(name)[1..])
  {
    var i := SuffixStart(name);
    if i >= 0 {
      var x := Suffix(name);
      assert forall k :: 0 <= k < |x[1..]| ==> x[1..][k] == name[i + 1 + k] && x[1..][k] != '.';
    }
  }

  /** `Path(p).with_name(n)` as text. */
  function WithName(p: string, n: string): string
  {
    Child(Parent(p), n)
  }
}
