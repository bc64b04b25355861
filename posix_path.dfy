/** Node's POSIX `path.dirname` and `path.relative`, as the loader uses them.

    A path is resolved the way `path.resolve` does with the working directory
    at the root `/`: it is split at `/`, empty and `.` segments are dropped, and
    `..` removes the segment before it (at the root it is dropped). The result
    is a normal path: a sequence of plain names. */
module PosixPath {

  /** `s.split('/')` */
  function Split(s: string): (r: seq<string>)
    ensures |r| >= 1
    ensures forall i :: 0 <= i < |r| ==> '/' !in r[i]
    decreases |s|
  {
    if s == [] then [[]]
    else
      var rest := Split(s[1..]);
      if s[0] == '/' then [[]] + rest else [[s[0]] + rest[0]] + rest[1..]
  }

  /** `parts.join('/')` */
  function Join(parts: seq<string>): string
    decreases |parts|
  {
    if parts == [] then []
    else if |parts| == 1 then parts[0]
    else parts[0] + "/" + Join(parts[1..])
  }

  /** Splitting at `/` and joining with `/` gives the string back. */
  lemma {:induction false} JoinSplit(s: string)
    ensures Join(Split(s)) == s
    decreases |s|
  {
    if s != [] {
      JoinSplit(s[1..]);
      var rest := Split(s[1..]);
      if s[0] != '/' {
        if |rest| > 1 {
          assert Join(rest) == rest[0] + "/" + Join(rest[1..]);
        }
      }
      assert [s[0]] + s[1..] == s;
    }
  }

  /** Joining parts that hold no `/` and splitting again gives the parts back. */
  lemma {:induction false} SplitJoin(parts: seq<string>)
    requires |parts| >= 1
    requires forall i :: 0 <= i < |parts| ==> '/' !in parts[i]
    ensures Split(Join(parts)) == parts
    decreases |parts|
  {
    if |parts| == 1 {
      SplitNoSlash(parts[0]);
    } else {
      SplitJoin(parts[1..]);
      SplitAfterName(parts[0], Join(parts[1..]));
      assert [parts[0]] + parts[1..] == parts;
    }
  }

  lemma {:induction false} SplitNoSlash(s: string)
    requires '/' !in s
    ensures Split(s) == [s]
    decreases |s|
  {
    if s != [] {
      SplitNoSlash(s[1..]);
      assert [s[0]] + s[1..] == s;
    }
  }

  /** Split(a + "/" + b) == [a] + Split(b), for a name `a` without `/`. */
  lemma {:induction false} SplitAfterName(a: string, b: string)
    requires '/' !in a
    ensures Split(a + "/" + b) == [a] + Split(b)
    decreases |a|
  {
    if a == [] {
      assert a + "/" + b == "/" + b;
      assert ("/" + b)[1..] == b;
    } else {
      SplitAfterName(a[1..], b);
      assert (a + "/" + b)[1..] == a[1..] + "/" + b;
      assert [a[0]] + a[1..] == a;
    }
  }

  /** A segment of a normal path: not empty, not `.` or `..`, no `/`. */
  predicate IsName(seg: string)
  {
    seg != "" && seg != "." && seg != ".." && '/' !in seg
  }

  predicate IsNormal(p: seq<string>)
  {
    forall i :: 0 <= i < |p| ==> IsName(p[i])
  }

  /** One segment of `path.normalize`'s walk, standing at directory `at`. */
  function Step(at: seq<string>, seg: string): seq<string>
  {
    if seg == "" || seg == "." then at
    else if seg == ".." then (if at == [] then [] else at[..|at| - 1])
    else at + [seg]
  }

  /** Walks the segments `raw` starting at directory `at`. */
  function Walk(at: seq<string>, raw: seq<string>): (r: seq<string>)
    decreases |raw|
  {
    if raw == [] then at else Walk(Step(at, raw[0]), raw[1..])
  }

  /** Walking from a normal directory over segments without `/` ends at a normal directory. */
  lemma {:induction false} WalkIsNormal(at: seq<string>, raw: seq<string>)
    requires IsNormal(at)
    requires forall i :: 0 <= i < |raw| ==> '/' !in raw[i]
    ensures IsNormal(Walk(at, raw))
    decreases |raw|
  {
    if raw != [] {
      WalkIsNormal(Step(at, raw[0]), raw[1..]);
    }
  }

  lemma {:induction false} WalkAppend(at: seq<string>, a: seq<string>, b: seq<string>)
    ensures Walk(at, a + b) == Walk(Walk(at, a), b)
    decreases |a|
  {
    if a != [] {
      WalkAppend(Step(at, a[0]), a[1..], b);
      assert (a + b)[0] == a[0] && (a + b)[1..] == a[1..] + b;
    } else {
      assert a + b == b;
    }
  }

  /** `path.resolve(s)` with the working directory at the root. */
  function Resolve(s: string): (r: seq<string>)
    ensures IsNormal(r)
  {
    WalkIsNormal([], Split(s));
    Walk([], Split(s))
  }

  /** Drops the empty segments that trailing slashes leave at the end. */
  function TrimTrailing(raw: seq<string>): (r: seq<string>)
    ensures |r| <= |raw| && r == raw[..|r|]
    ensures r == [] || r[|r| - 1] != ""
    ensures forall i :: |r| <= i < |raw| ==> raw[i] == ""
    decreases |raw|
  {
    if raw == [] || raw[|raw| - 1] != "" then raw else TrimTrailing(raw[..|raw| - 1])
  }

  /** `path.resolve(path.dirname(s))`: the resolved directory that contains `s`.
      `path.dirname` removes trailing slashes and then the last segment, and
      answers `.` (or `/`) when nothing is left, which resolves to the root. */
  function Dirname(s: string): (r: seq<string>)
    ensures IsNormal(r)
  {
    var kept := TrimTrailing(Split(s));
    var dir := if kept == [] then [] else kept[..|kept| - 1];
    WalkIsNormal([], dir);
    Walk([], dir)
  }

  /** Splitting after one more `/` adds an empty last part. */
  lemma {:induction false} SplitSlash(s: string)
    ensures Split(s + "/") == Split(s) + [""]
    decreases |s|
  {
    if s == [] {
      assert Split("/") == [[]] + Split([]);
    } else {
      SplitSlash(s[1..]);
      assert (s + "/")[1..] == s[1..] + "/";
    }
  }

  /** `path.dirname` ignores a trailing slash: `a/b/` has the directory of `a/b`. */
  lemma DirnameTrailingSlash(s: string)
    ensures Dirname(s + "/") == Dirname(s)
  {
    SplitSlash(s);
    var raw := Split(s);
    assert (raw + [""])[..|raw + [""]| - 1] == raw;
  }

  /** The directory of `dir/name` is `dir`, for a normal `dir` and a plain name;
      with `dir` empty this is a top-level name, whose directory `.` resolves
      to the root. */
  lemma DirnameOfJoin(dir: seq<string>, name: string)
    requires IsNormal(dir) && IsName(name)
    ensures Dirname(Join(dir + [name])) == dir
  {
    var parts := dir + [name];
    SplitJoin(parts);
    assert TrimTrailing(parts) == parts;
    assert parts[..|parts| - 1] == dir;
    WalkNames([], dir);
  }

  /** Length of the longest common prefix of `a` and `b`. */
  function CommonPrefix(a: seq<string>, b: seq<string>): (k: nat)
    ensures k <= |a| && k <= |b| && a[..k] == b[..k]
    ensures k < |a| && k < |b| ==> a[k] != b[k]
    decreases |a|
  {
    if a == [] || b == [] || a[0] != b[0] then 0
    else
      var k := CommonPrefix(a[1..], b[1..]);
      assert a[..k + 1] == [a[0]] + a[1..][..k];
      assert b[..k + 1] == [b[0]] + b[1..][..k];
      k + 1
  }

  function Ups(n: nat): (r: seq<string>)
    ensures |r| == n && forall i :: 0 <= i < n ==> r[i] == ".."
  {
    if n == 0 then [] else Ups(n - 1) + [".."]
  }

  /** `path.relative(from, to)` on resolved paths: one `..` for each segment of
      `from` past the common prefix, then the rest of `to`. */
  function Relative(from: seq<string>, to: seq<string>): seq<string>
  {
    var k := CommonPrefix(from, to);
    Ups(|from| - k) + to[k..]
  }

  /** `path.relative(from, to)` for a `from` given already resolved (as the
      loader's `path.dirname` result is). */
  function RelativePath(from: seq<string>, to: string): string
  {
    Join(Relative(from, Resolve(to)))
  }

  lemma {:induction false} WalkUps(at: seq<string>, n: nat)
    requires n <= |at|
    ensures Walk(at, Ups(n)) == at[..|at| - n]
    decreases n
  {
    if n > 0 {
      WalkAppend(at, Ups(n - 1), [".."]);
      WalkUps(at, n - 1);
      assert Ups(n) == Ups(n - 1) + [".."];
    }
  }

  lemma {:induction false} WalkNames(at: seq<string>, names: seq<string>)
    requires IsNormal(names)
    ensures Walk(at, names) == at + names
    decreases |names|
  {
    if names != [] {
      WalkNames(at + [names[0]], names[1..]);
      assert at + [names[0]] + names[1..] == at + names;
    }
  }

  lemma NormalSuffix(p: seq<string>, k: nat)
    requires IsNormal(p) && k <= |p|
    ensures IsNormal(p[k..])
  {
    forall i | 0 <= i < |p| - k ensures IsName(p[k..][i]) {
      assert p[k..][i] == p[k + i];
    }
  }

  /** Walking from `from` along `Relative(from, to)` arrives at `to`. */
  lemma RelativeArrives(from: seq<string>, to: seq<string>)
    requires IsNormal(to)
    ensures Walk(from, Relative(from, to)) == to
  {
    var k := CommonPrefix(from, to);
    var ups, rest := Ups(|from| - k), to[k..];
    WalkAppend(from, ups, rest);
    WalkUps(from, |from| - k);
    assert Walk(from, ups) == to[..k];
    NormalSuffix(to, k);
    WalkNames(to[..k], rest);
    assert to[..k] + rest == to;
  }

  lemma RelativeHasNoSlash(from: seq<string>, to: seq<string>)
    requires IsNormal(to)
    ensures forall i :: 0 <= i < |Relative(from, to)| ==> '/' !in Relative(from, to)[i]
  {
    var k := CommonPrefix(from, to);
    var r := Relative(from, to);
    forall i | 0 <= i < |r| ensures '/' !in r[i] {
      if i >= |from| - k {
        assert r[i] == to[k + i - (|from| - k)];
      }
    }
  }

  /** `path.resolve(from, path.relative(from, to)) == path.resolve(to)`: the
      relative path leads from the directory `from` to `to`. */
  lemma RelativePathLeadsTo(from: seq<string>, to: string)
    requires IsNormal(from)
    ensures Walk(from, Split(RelativePath(from, to))) == Resolve(to)
  {
    var r := Relative(from, Resolve(to));
    RelativeArrives(from, Resolve(to));
    if r == [] {
      assert Split(Join(r)) == [""];
    } else {
      RelativeHasNoSlash(from, Resolve(to));
      SplitJoin(r);
    }
  }

  /** The relative path is empty exactly when `to` resolves to `from` itself. */
  lemma RelativePathEmpty(from: seq<string>, to: string)
    requires IsNormal(from)
    ensures RelativePath(from, to) == "" <==> Resolve(to) == from
  {
    var t := Resolve(to);
    var r := Relative(from, t);
    var k := CommonPrefix(from, t);
    if Resolve(to) == from {
      assert k == |from|;
    } else {
      RelativeArrives(from, t);
      if r != [] {
        assert IsName(r[0]) || r[0] == "..";
        JoinStartsWith(r);
      }
    }
  }

  lemma JoinStartsWith(parts: seq<string>)
    requires |parts| >= 1 && parts[0] != ""
    ensures Join(parts) != ""
  {
    if |parts| > 1 {
      assert Join(parts) == parts[0] + "/" + Join(parts[1..]);
    }
  }

  lemma SplitTwo(a: string, b: string)
    requires IsName(a) && IsName(b)
    ensures Split(a + "/" + b) == [a, b]
  {
    SplitNoSlash(b);
    SplitAfterName(a, b);
  }

  /** An asset in the document's own directory is referred to by its bare name
      (`assets/x.gltf` and `assets/y.png` give `y.png`). */
  lemma SameDirectory(dir: string, name: string, asset: string)
    requires IsName(dir) && IsName(name) && IsName(asset)
    ensures RelativePath(Dirname(dir + "/" + name), dir + "/" + asset) == asset
  {
    SplitTwo(dir, name);
    SplitTwo(dir, asset);
    assert TrimTrailing([dir, name]) == [dir, name];
    assert [dir, name][..1] == [dir];
    WalkNames([], [dir]);
    WalkNames([], [dir, asset]);
    assert Relative([dir], [dir, asset]) == [asset];
  }

  /** An asset in a sibling directory is reached through `..`
      (`shared/x.gltf` and `assets/y.png` give `../assets/y.png`). */
  lemma SiblingDirectory(dir: string, name: string, assetDir: string, asset: string)
    requires IsName(dir) && IsName(name) && IsName(assetDir) && IsName(asset) && dir != assetDir
    ensures RelativePath(Dirname(dir + "/" + name), assetDir + "/" + asset) == "../" + assetDir + "/" + asset
  {
    SplitTwo(dir, name);
    SplitTwo(assetDir, asset);
    assert TrimTrailing([dir, name]) == [dir, name];
    assert [dir, name][..1] == [dir];
    WalkNames([], [dir]);
    WalkNames([], [assetDir, asset]);
    assert Relative([dir], [assetDir, asset]) == ["..", assetDir, asset];
    assert Join([assetDir, asset]) == assetDir + "/" + asset;
    assert Join(["..", assetDir, asset]) == ".." + "/" + Join([assetDir, asset]);
  }

  /** A document at the top level refers to an asset by the asset's whole path
      (`x.gltf` and `assets/y.png` give `assets/y.png`). */
  lemma FromTopLevel(name: string, assetDir: string, asset: string)
    requires IsName(name) && IsName(assetDir) && IsName(asset)
    ensures RelativePath(Dirname(name), assetDir + "/" + asset) == assetDir + "/" + asset
  {
    SplitNoSlash(name);
    SplitTwo(assetDir, asset);
    assert TrimTrailing([name]) == [name];
    WalkNames([], [assetDir, asset]);
    assert Relative([], [assetDir, asset]) == [assetDir, asset];
    assert Join([assetDir, asset]) == assetDir + "/" + asset;
  }
}
