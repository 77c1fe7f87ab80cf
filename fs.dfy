/**
 * A snapshot of the filesystem as the Python code sees it through `os`:
 * every path maps to a regular file with its bytes or to a directory with
 * the names `os.listdir` returns, in listing order.
 */
module Fs {
  import opened Wrappers
  import opened Faults

  newtype byte = x: int | 0 <= x < 256

  datatype Node = File(contents: seq<byte>) | Dir(children: seq<string>)

  /** Paths are compared as strings, exactly as the code builds them. */
  type Fs = map<string, Node>

  /** `os.path.isdir(p)`. */
  predicate IsDir(fs: Fs, p: string)
  {
    p in fs && fs[p].Dir?
  }

  /** `os.path.isfile(p)`. */
  predicate IsFile(fs: Fs, p: string)
  {
    p in fs && fs[p].File?
  }

  /** The names `os.listdir` can return: never one holding the separator. */
  predicate PlainNames(names: seq<string>)
  {
    forall i :: 0 <= i < |names| ==> '/' !in names[i]
  }

  /** `os.listdir(p)`: the entry names of a directory, or the error it raises. */
  function ListDir(fs: Fs, p: string): Result<seq<string>, Fault>
  {
    if p !in fs then Err(OsError(ENOENT, p))
    else if fs[p].File? then Err(OsError(ENOTDIR, p))
    else Ok(fs[p].children)
  }

  /** `os.path.join(p, n)`: an absolute `n` replaces `p`; a separator is added only when `p` lacks one. */
  function Join(p: string, n: string): string
  {
    if |n| > 0 && n[0] == '/' then n
    else if p == [] || p[|p| - 1] == '/' then p + n
    else p + "/" + n
  }

  /** `s.split('/')[-1]`: the text after the last separator, or all of `s` when it has none. */
  function LastSegment(s: string): (r: string)
    ensures '/' !in r
    ensures |r| <= |s| && r == s[|s| - |r|..]
    ensures |r| < |s| ==> s[|s| - |r| - 1] == '/'
  {
    if s == [] then []
    else if s[|s| - 1] == '/' then []
    else LastSegment(s[..|s| - 1]) + [s[|s| - 1]]
  }

  /** The last segment of a path that ends in a separator followed by a plain name is that name. */
  lemma {:induction false} LastSegmentAfterSeparator(q: string, n: string)
    requires q == [] || q[|q| - 1] == '/'
    requires '/' !in n
    ensures LastSegment(q + n) == n
  {
    if n != [] {
      var m := n[..|n| - 1];
      assert (q + n)[..|q + n| - 1] == q + m;
      LastSegmentStep(q + n);
      LastSegmentAfterSeparator(q, m);
      assert m + [n[|n| - 1]] == n;
    }
  }

  /** A path whose last character is not a separator: its last segment ends with that character. */
  lemma LastSegmentStep(s: string)
    requires s != [] && s[|s| - 1] != '/'
    ensures LastSegment(s) == LastSegment(s[..|s| - 1]) + [s[|s| - 1]]
  {
  }

  /** Splitting a joined path on '/' gives back the plain name that was joined. */
  lemma LastSegmentOfJoin(p: string, n: string)
    requires '/' !in n
    ensures LastSegment(Join(p, n)) == n
  {
    if p == [] || p[|p| - 1] == '/' {
      LastSegmentAfterSeparator(p, n);
    } else {
      assert p + "/" + n == (p + "/") + n;
      LastSegmentAfterSeparator(p + "/", n);
    }
  }

  /** `c.lower()` for ASCII letters. */
  function LowerChar(c: char): char
  {
    if 'A' <= c <= 'Z' then (c as int + 32) as char else c
  }

  /** `s.lower()`, letter by letter. */
  function Lower(s: string): (r: string)
    ensures |r| == |s|
    ensures forall i :: 0 <= i < |s| ==> r[i] == LowerChar(s[i])
  {
    seq(|s|, i requires 0 <= i < |s| => LowerChar(s[i]))
  }

  /**
   * `os.mkdir(Join(parent, name))`: fails when the path exists or the parent
   * is not a directory; otherwise adds an empty directory and lists it in
   * its parent, after the parent's existing entries.
   */
  function MkDir(fs: Fs, parent: string, name: string): Result<Fs, Fault>
  {
    var p := Join(parent, name);
    if p in fs then Err(OsError(EEXIST, p))
    else if parent !in fs then Err(OsError(ENOENT, p))
    else if fs[parent].File? then Err(OsError(ENOTDIR, p))
    else Ok(fs[parent := Dir(fs[parent].children + [name])][p := Dir([])])
  }

  /**
   * `open(Join(dir, name), "w").write(data)`: replaces an existing file's
   * contents, or creates the file and lists it in `dir`.
   */
  function WriteFile(fs: Fs, dir: string, name: string, data: seq<byte>): Result<Fs, Fault>
  {
    var p := Join(dir, name);
    if IsDir(fs, p) then Err(OsError(EISDIR, p))
    else if p in fs then Ok(fs[p := File(data)])
    else if dir !in fs then Err(OsError(ENOENT, p))
    else if fs[dir].File? then Err(OsError(ENOTDIR, p))
    else Ok(fs[dir := Dir(fs[dir].children + [name])][p := File(data)])
  }
}
