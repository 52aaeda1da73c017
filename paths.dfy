/** `os.path.join` and `os.path.basename` on POSIX paths. */
module Paths {
  import opened Wrappers
  import Seqs

  predicate EndsWithSlash(p: string) { |p| > 0 && p[|p| - 1] == '/' }

  /** `os.path.join(a, b)`: an absolute `b` replaces `a`; otherwise a `/` is put
      between them unless `a` is empty or already ends with one. */
  function Join(a: string, b: string): string
  {
    if |b| > 0 && b[0] == '/' then b
    else if a == "" || EndsWithSlash(a) then a + b
    else a + "/" + b
  }

  /** `os.path.basename(p)`: everything after the last `/`. */
  function Basename(p: string): (b: string)
  {
    if p == [] || EndsWithSlash(p) then [] else Basename(p[..|p| - 1]) + [p[|p| - 1]]
  }

  /** The base name is a suffix of the path and holds no `/`. */
  lemma {:induction false} BasenameIsSuffix(p: string)
    ensures '/' !in Basename(p)
    ensures |Basename(p)| <= |p| && Basename(p) == p[|p| - |Basename(p)|..]
  {
    if p != [] && !EndsWithSlash(p) {
      var init := p[..|p| - 1];
      BasenameIsSuffix(init);
      assert p == init + [p[|p| - 1]];
    }
  }

  /** A name as `os.listdir` returns it: not empty and without `/`. */
  predicate IsEntryName(name: string) { name != "" && '/' !in name }

  lemma {:induction false} BasenameAfterSlash(d: string, name: string)
    requires d == "" || EndsWithSlash(d)
    requires '/' !in name
    ensures Basename(d + name) == name
    decreases |name|
  {
    if name == [] {
      assert d + name == d;
    } else {
      var p := d + name;
      var init, last := name[..|name| - 1], name[|name| - 1];
      assert last in name && p[|p| - 1] == last;
      assert !EndsWithSlash(p);
      assert p[..|p| - 1] == d + init;
      BasenameAfterSlash(d, init);
      assert name == init + [last];
    }
  }

  /** The basename of a directory entry joined to its directory is the entry's name. */
  lemma BasenameOfJoin(dir: string, name: string)
    requires IsEntryName(name)
    ensures Basename(Join(dir, name)) == name
  {
    assert name[0] in name;
    if dir == "" || EndsWithSlash(dir) {
      BasenameAfterSlash(dir, name);
    } else {
      assert dir + "/" + name == (dir + "/") + name;
      BasenameAfterSlash(dir + "/", name);
    }
  }

  /** Joining relative names to one directory keeps distinct names distinct. */
  lemma JoinInjective(dir: string, x: string, y: string)
    requires |x| > 0 && x[0] != '/'
    requires |y| > 0 && y[0] != '/'
    requires Join(dir, x) == Join(dir, y)
    ensures x == y
  {
    var p := if dir == "" || EndsWithSlash(dir) then dir else dir + "/";
    assert Join(dir, x) == p + x && Join(dir, y) == p + y;
    assert x == (p + x)[|p|..];
  }

  /** The file system as the converters read it: each directory with the entries `os.listdir` gives. */
  type FileSystem = map<string, seq<string>>

  predicate IsListing(names: seq<string>) { forall name :: name in names ==> IsEntryName(name) }

  /** `[os.path.join(dir, f) for f in os.listdir(dir)]`; a missing directory raises `OSError`. */
  function ListPaths(fs: FileSystem, dir: string): Result<seq<string>, PyError>
  {
    if dir in fs then Success(Seqs.Map((name: string) => Join(dir, name), fs[dir])) else Failure(OSError(dir))
  }
}
