/**
 * File-name helpers of `src/path.cpp`, in the hand-written form the source
 * uses when `std::filesystem` is unavailable: everything is a search for the
 * last separator (`rfind`) followed by `substr`.
 */
module Path {

  /** Position of the last `c` in `s`, or -1 when there is none (`rfind` returning `npos`). */
  function LastIndex(s: string, c: char): (r: int)
    ensures -1 <= r < |s|
    ensures r == -1 <==> c !in s
    ensures r >= 0 ==> s[r] == c && c !in s[r + 1..]
  {
    if s == [] then -1
    else if s[|s| - 1] == c then |s| - 1
    else
      var r := LastIndex(s[..|s| - 1], c);
      assert s == s[..|s| - 1] + [s[|s| - 1]];
      assert r >= 0 ==> s[r + 1..] == s[..|s| - 1][r + 1..] + [s[|s| - 1]];
      r
  }

  /** The last path component: everything after the last `/`, or the whole path. */
  function Filename(path: string): (r: string)
    ensures '/' !in r
    ensures '/' !in path ==> r == path
  {
    var slash := LastIndex(path, '/');
    if slash < 0 then path else path[slash + 1..]
  }

  /** What follows the last `.`, without the dot, or the whole path when it has none. */
  function Extension(path: string): (r: string)
    ensures '.' in path ==> '.' !in r
    ensures |r| <= |path| && r == path[|path| - |r|..]
  {
    var dot := LastIndex(path, '.');
    if dot < 0 then path else path[dot + 1..]
  }

  /** The path up to its last `.`, followed by `newExtension`; unchanged when it has no `.`. */
  function ReplaceExtension(path: string, newExtension: string): (r: string)
    ensures '.' !in path ==> r == path
    ensures '.' in path ==> |newExtension| <= |r| < |path| + |newExtension|
    ensures '.' in path ==> r[|r| - |newExtension|..] == newExtension
  {
    var dot := LastIndex(path, '.');
    if dot < 0 then path else path[..dot] + newExtension
  }

  /** `filename` never contains `/`, leaves a path without `/` alone, and otherwise
    * is the part after the last `/` of the path. */
  lemma FilenameSplits(path: string)
    ensures '/' !in Filename(path)
    ensures '/' !in path ==> Filename(path) == path
    ensures '/' in path ==> path == path[..LastIndex(path, '/')] + "/" + Filename(path)
  {
    var k := LastIndex(path, '/');
    if k >= 0 {
      assert path == path[..k] + [path[k]] + path[k + 1..];
    }
  }

  /** `extension` leaves a dot-free path alone; otherwise its result has no dot and
    * the path is what precedes the last dot, the dot, then the extension. */
  lemma ExtensionSplits(path: string)
    ensures '.' !in path ==> Extension(path) == path
    ensures '.' in path ==> '.' !in Extension(path)
    ensures '.' in path ==> path == path[..LastIndex(path, '.')] + "." + Extension(path)
  {
    var k := LastIndex(path, '.');
    if k >= 0 {
      assert path == path[..k] + [path[k]] + path[k + 1..];
    }
  }

  /** `replace_extension` leaves a dot-free path alone; otherwise it keeps what
    * precedes the last dot and ends with the new extension. */
  lemma ReplaceExtensionShape(path: string, e: string)
    ensures '.' !in path ==> ReplaceExtension(path, e) == path
    ensures '.' in path ==> ReplaceExtension(path, e) == path[..LastIndex(path, '.')] + e
    ensures '.' in path ==> |ReplaceExtension(path, e)| >= |e| &&
                            ReplaceExtension(path, e)[|ReplaceExtension(path, e)| - |e|..] == e
  {
  }

  /** Replacing an extension adds no space that neither part had. */
  lemma ReplaceExtensionSpaceFree(path: string, e: string)
    requires ' ' !in path && ' ' !in e
    ensures ' ' !in ReplaceExtension(path, e)
  {
    var dot := LastIndex(path, '.');
    if dot >= 0 {
      assert path == path[..dot] + path[dot..];
    }
  }

  /** Putting back the extension that `extension` took off gives the path again. */
  lemma ReplaceExtensionRoundTrip(path: string)
    requires '.' in path
    ensures ReplaceExtension(path, "." + Extension(path)) == path
  {
    ExtensionSplits(path);
  }

  /** The last `c` of `a + [c] + b` is the one between them when `b` has none. */
  lemma {:induction false} LastIndexAt(a: string, c: char, b: string)
    requires c !in b
    ensures LastIndex(a + [c] + b, c) == |a|
    decreases |b|
  {
    var s := a + [c] + b;
    if b == [] {
      assert s[|s| - 1] == c;
    } else {
      assert s[|s| - 1] == b[|b| - 1] != c;
      assert s[..|s| - 1] == a + [c] + b[..|b| - 1];
      LastIndexAt(a, c, b[..|b| - 1]);
    }
  }

  /** Replacing with a `.`-led, otherwise dot-free extension is idempotent. */
  lemma ReplaceExtensionIdempotent(path: string, x: string)
    requires '.' !in x
    ensures ReplaceExtension(ReplaceExtension(path, "." + x), "." + x) == ReplaceExtension(path, "." + x)
  {
    var k := LastIndex(path, '.');
    if k >= 0 {
      var r := path[..k] + "." + x;
      assert r == path[..k] + ['.'] + x;
      LastIndexAt(path[..k], '.', x);
      assert r[..k] == path[..k];
    }
  }

  /** The file name of a path joined under a directory is the joined name. */
  lemma FilenameOfJoin(dir: string, name: string)
    requires '/' !in name
    ensures Filename(dir + "/" + name) == name
  {
    var s := dir + "/" + name;
    assert s == dir + ['/'] + name;
    LastIndexAt(dir, '/', name);
    assert s[|dir| + 1..] == name;
  }
}
