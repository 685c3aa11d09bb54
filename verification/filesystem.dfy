/** An abstract filesystem: a finite map from absolute path strings to nodes.

    A directory's contents are the entries whose path lies below it
    (`Within`); parents are not required to be present. A `Tree` is a
    detached directory tree whose keys are paths relative to its root: `""`
    is the root itself and `"/a/b"` lies two levels below it. The operations
    are the four `fs.promises` calls the transfer jobs make, with the error
    codes Node reports for the cases this model can distinguish.
 */
module FileSystem {
  import opened Wrappers

  type Path = string

  datatype Node = Dir | File(data: string)

  type Fs = map<Path, Node>

  /** A detached tree: it has a root, and every other key starts with `/`. */
  type Tree = t: map<Path, Node> | "" in t && forall k :: k in t ==> k == "" || k[0] == '/'
    witness map["" := Dir]

  /** The tree of a single empty directory. */
  const EmptyDir: Tree := map["" := Dir]

  /** `path.join(dir, name)` for a directory and a single name; Node's
      normalisation of `.`, `..` and doubled separators is not modelled. */
  function Join(dir: Path, name: string): (r: Path)
    ensures |r| == |dir| + 1 + |name| && r[..|dir|] == dir && r[|dir|] == '/' && r[|dir| + 1..] == name
  {
    dir + "/" + name
  }

  /** A joined path lies strictly below the directory. */
  lemma JoinWithin(dir: Path, name: string)
    ensures Within(Join(dir, name), dir) && Join(dir, name) != dir
  {
    assert Join(dir, name)[..|dir| + 1] == dir + "/";
  }

  /** `q` is `p` or lies below it. */
  predicate Within(q: Path, p: Path) {
    q == p || p + "/" <= q
  }

  /** Neither path lies within the other, so their trees are disjoint. */
  predicate Separate(p: Path, q: Path) {
    !Within(p, q) && !Within(q, p)
  }

  function Lookup(fs: Fs, q: Path): Option<Node> {
    if q in fs then Some(fs[q]) else None
  }

  /** Every path outside `p` looks the same in `a` and `b`. */
  ghost predicate SameOutside(a: Fs, b: Fs, p: Path) {
    forall q :: !Within(q, p) ==> Lookup(a, q) == Lookup(b, q)
  }

  /** Every path outside both `p1` and `p2` looks the same in `a` and `b`. */
  ghost predicate SameOutside2(a: Fs, b: Fs, p1: Path, p2: Path) {
    forall q :: !Within(q, p1) && !Within(q, p2) ==> Lookup(a, q) == Lookup(b, q)
  }

  /** Everything within `p` looks the same in `a` and `b`. */
  ghost predicate SameWithin(a: Fs, b: Fs, p: Path) {
    forall q :: Within(q, p) ==> Lookup(a, q) == Lookup(b, q)
  }

  /** Nothing at or below `p`. */
  ghost predicate Absent(fs: Fs, p: Path) {
    forall q :: q in fs ==> !Within(q, p)
  }

  /** `path.dirname(p)` of Node's POSIX path module. Trailing separators
      are skipped; the result is everything before the separator that
      precedes the last name, `/` or `.` when there is none, and `//` for a
      path that starts with exactly that separator pair and one name. */
  function Dirname(p: Path): (r: Path)
    ensures r == "." || r == "/" || r == "//" || (0 < |r| < |p| && r + "/" <= p)
    ensures '/' !in p ==> r == "."
    ensures p != [] && p[0] == '/' ==> r != [] && r[0] == '/'
  {
    if p == [] then "."
    else
      match DirEnd(p, |p| - 1, true)
      case None => if p[0] == '/' then "/" else "."
      case Some(e) => if p[0] == '/' && e == 1 then "//" else p[..e]
  }

  /** The scan of `dirname` from index `i` down to 1: the first separator
      met after a character that is not one, if any. `matchedSlash` holds
      while only separators have been seen. */
  function DirEnd(p: Path, i: nat, matchedSlash: bool): (r: Option<nat>)
    requires i < |p|
    ensures r.Some? ==> 1 <= r.value <= i && p[r.value] == '/'
    ensures '/' !in p ==> r == None
  {
    if i == 0 then None
    else if p[i] == '/' then (if matchedSlash then DirEnd(p, i - 1, true) else Some(i))
    else DirEnd(p, i - 1, false)
  }

  /** A single name, possibly followed by separators: what may follow the
      last separator of a path that `dirname` cuts. */
  predicate TrailingName(n: string) {
    && n != [] && n[0] != '/'
    && forall a, b :: 0 <= a < b < |n| && n[a] == '/' ==> n[b] == '/'
  }

  /** `dirname` undoes `join`: the parent of `d/n`, for a name `n`, is `d`
      itself, except that the parent of `//n` is `//`. */
  lemma DirnameJoin(d: Path, n: string)
    requires d != [] && TrailingName(n)
    ensures Dirname(d + "/" + n) == if d == "/" then "//" else d
  {
    var p := d + "/" + n;
    forall k | |d| < k < |p| ensures p[k] == n[k - |d| - 1] {}
    assert p[|d| + 1] == n[0];
    ScanFromEnd(p, |d|, |p| - 1);
    assert p[..|d|] == d;
    if |d| == 1 && p[0] == '/' {
      assert d == [p[0]];
    }
  }

  /** From the end of `p` the scan stops at `p[e]` when what follows it is a
      name with trailing separators. */
  lemma {:induction false} ScanFromEnd(p: Path, e: nat, i: nat)
    requires 1 <= e < i < |p| && p[e] == '/'
    requires forall k :: e < k <= i ==> p[k] == '/' ==> k > e + 1
    requires forall k, j :: e < k < j < |p| && p[k] == '/' ==> p[j] == '/'
    requires forall j :: i < j < |p| ==> p[j] == '/'
    ensures DirEnd(p, i, true) == Some(e)
  {
    if p[i] == '/' {
      ScanFromEnd(p, e, i - 1);
    } else {
      ScanName(p, e, i - 1);
    }
  }

  /** Once a name character has been seen, the scan stops at the first
      separator. */
  lemma {:induction false} ScanName(p: Path, e: nat, i: nat)
    requires 1 <= e <= i < |p| && p[e] == '/'
    requires forall k :: e < k <= i ==> p[k] != '/'
    ensures DirEnd(p, i, false) == Some(e)
  {
    if i > e {
      ScanName(p, e, i - 1);
    }
  }

  /** `fs.rm(p, {recursive: true, force: true})`: `p` and everything below it
      disappear, a missing `p` is not an error, nothing else changes. */
  function Remove(fs: Fs, p: Path): (r: Fs)
    ensures Absent(r, p)
    ensures SameOutside(r, fs, p)
    ensures forall q {:trigger q in r} :: q in r ==> q in fs && r[q] == fs[q]
  {
    map q | q in fs && !Within(q, p) :: fs[q]
  }

  /** A file sits at `p` or at a directory position above it. */
  predicate FileInTheWay(fs: Fs, p: Path) {
    exists q | q in fs :: Within(p, q) && fs[q].File?
  }

  /** `fs.mkdir(p, {recursive: true})`: fails with EEXIST when `p` is a file
      and ENOTDIR when a file stands above it; an existing directory is
      left alone; otherwise `p` becomes an empty directory. */
  function MakeDirs(fs: Fs, p: Path): (r: Result<Fs>)
    ensures r.Err? <==> FileInTheWay(fs, p)
    ensures r.Err? && p in fs && fs[p].File? ==> r.error.code == "EEXIST"
    ensures r.Ok? ==> p in r.value && r.value[p] == Dir
    ensures r.Ok? ==> forall q :: q != p ==> Lookup(r.value, q) == Lookup(fs, q)
  {
    if FileInTheWay(fs, p) then
      if p in fs && fs[p].File? then Err(Error("EEXIST", "EEXIST: file already exists, mkdir '" + p + "'", ""))
      else Err(Error("ENOTDIR", "ENOTDIR: not a directory, mkdir '" + p + "'", ""))
    else if p in fs then Ok(fs)
    else Ok(fs[p := Dir])
  }

  /** `p` is a directory: one is recorded there, or, since parents are
      implicit, nothing is recorded there but something lies below it. */
  predicate IsDirectory(fs: Fs, p: Path) {
    if p in fs then fs[p].Dir? else exists q | q in fs :: q != p && Within(q, p)
  }

  /** `fs.writeFile(p, data)`: fails with EISDIR on a directory and ENOTDIR
      when a file stands above `p`; otherwise `p` holds exactly `data`. */
  function WriteFile(fs: Fs, p: Path, data: string): (r: Result<Fs>)
    ensures r.Err? <==> IsDirectory(fs, p) || (exists q | q in fs :: q != p && Within(p, q) && fs[q].File?)
    ensures r.Err? && IsDirectory(fs, p) ==> r.error.code == "EISDIR"
    ensures r.Ok? ==> p in r.value && r.value[p] == File(data)
    ensures r.Ok? ==> forall q :: q != p ==> Lookup(r.value, q) == Lookup(fs, q)
  {
    if IsDirectory(fs, p) then Err(Error("EISDIR", "EISDIR: illegal operation on a directory, open '" + p + "'", ""))
    else if exists q | q in fs :: q != p && Within(p, q) && fs[q].File? then
      Err(Error("ENOTDIR", "ENOTDIR: not a directory, open '" + p + "'", ""))
    else Ok(fs[p := File(data)])
  }

  /** The tree rooted at `p`, with keys made relative to `p`. */
  function Subtree(fs: Fs, p: Path): (t: Tree)
    requires p in fs
    ensures forall k {:trigger k in t} :: k in t <==> p + k in fs && Within(p + k, p)
    ensures forall k {:trigger t[k]} :: k in t ==> t[k] == fs[p + k]
  {
    var keys := set q | q in fs && Within(q, p) :: q[|p|..];
    assert forall k :: k in keys ==> p + k in fs by {
      forall k | k in keys ensures p + k in fs {
        var q :| q in fs && Within(q, p) && k == q[|p|..];
        assert p + k == q;
      }
    }
    assert "" in keys by { assert p[|p|..] == ""; }
    forall k | p + k in fs && Within(p + k, p) ensures k in keys {
      assert (p + k)[|p|..] == k;
    }
    map k | k in keys :: fs[p + k]
  }

  /** The entries of `t` as absolute paths below `p`. */
  function Place(p: Path, t: Tree): (m: map<Path, Node>)
    ensures forall k {:trigger k in t} :: k in t ==> p + k in m && m[p + k] == t[k]
    ensures forall q {:trigger q in m} :: q in m ==> Within(q, p) && q[|p|..] in t
  {
    forall k1, k2 | k1 in t && k2 in t && p + k1 == p + k2 ensures k1 == k2 {
      assert k1 == (p + k1)[|p|..] && k2 == (p + k2)[|p|..];
    }
    var m := map k | k in t :: p + k := t[k];
    forall q | q in m ensures Within(q, p) && q[|p|..] in t {
      var k :| k in t && q == p + k;
      assert q[|p|..] == k;
      if k != "" { assert (p + "/") <= p + k; }
    }
    m
  }

  /** `fs` with the tree `t` placed at `p` (whatever was at `p + k` for a key
      `k` of `t` is overwritten). */
  function Graft(fs: Fs, p: Path, t: Tree): (r: Fs)
    ensures forall k {:trigger k in t} :: k in t ==> p + k in r && r[p + k] == t[k]
    ensures forall q {:trigger q in r} :: q in r && q !in fs ==> Within(q, p) && q[|p|..] in t
    ensures forall q {:trigger Lookup(r, q)} :: !Within(q, p) ==> Lookup(r, q) == Lookup(fs, q)
  {
    fs + Place(p, t)
  }

  /** `fs.rename(src, dst)`: ENOENT when nothing is at `src`; otherwise the
      tree at `src` now sits at `dst` and replaces whatever was there. */
  function Move(fs: Fs, src: Path, dst: Path): (r: Result<Fs>)
    ensures r.Err? <==> src !in fs
    ensures r.Err? ==> r.error.code == "ENOENT"
  {
    if src !in fs then Err(Error("ENOENT", "ENOENT: no such file or directory, rename '" + src + "' -> '" + dst + "'", ""))
    else Ok(Graft(Remove(Remove(fs, src), dst), dst, Subtree(fs, src)))
  }

  /** Placing a tree where nothing was, then reading the tree back, gives the
      tree placed. */
  lemma SubtreeOfGraft(fs: Fs, p: Path, t: Tree)
    requires Absent(fs, p)
    ensures p in Graft(fs, p, t)
    ensures Subtree(Graft(fs, p, t), p) == t
  {
    var r := Graft(fs, p, t);
    assert p + "" == p;
    var s := Subtree(r, p);
    forall k | k in s ensures k in t {
      assert p + k in r && Within(p + k, p);
      assert p + k !in fs;
      assert (p + k)[|p|..] == k;
    }
    forall k | k in t ensures k in s && s[k] == t[k] {
      assert p + k in r && Within(p + k, p) by {
        assert (p + k)[..|p|] == p;
      }
    }
    SameEntries(s, t);
  }

  /** Two maps with the same keys and the same value at each key are equal. */
  lemma SameEntries(a: map<Path, Node>, b: map<Path, Node>)
    requires forall k :: k in a <==> k in b
    requires forall k :: k in a ==> a[k] == b[k]
    ensures a == b
  {
  }

  /** A rename between two separate places moves the whole tree and touches
      nothing outside the two places. */
  lemma MoveRelocates(fs: Fs, src: Path, dst: Path)
    requires src in fs && Separate(src, dst)
    ensures Move(fs, src, dst).Ok?
    ensures var r := Move(fs, src, dst).value;
      && Absent(Remove(r, dst), src)
      && dst in r && Subtree(r, dst) == Subtree(fs, src)
      && SameOutside2(r, fs, src, dst)
  {
    var base := Remove(Remove(fs, src), dst);
    var r := Graft(base, dst, Subtree(fs, src));
    SubtreeOfGraft(base, dst, Subtree(fs, src));
  }
  lemma WithinTrans(q: Path, p: Path, root: Path)
    requires Within(q, p) && Within(p, root)
    ensures Within(q, root)
  {
    if q != p && p != root {
      assert q[..|p| + 1] == p + "/";
      assert p[..|root| + 1] == root + "/";
      assert q[..|root| + 1] == p[..|root| + 1];
    }
  }

  /** Two paths that something lies within lie one within the other. */
  lemma WithinBoth(q: Path, a: Path, b: Path)
    requires Within(q, a) && Within(q, b)
    ensures Within(a, b) || Within(b, a)
  {
    if q != a && q != b {
      if |a| < |b| {
        assert b[..|a| + 1] == q[..|a| + 1];
      } else if |b| < |a| {
        assert a[..|b| + 1] == q[..|b| + 1];
      } else {
        assert a == q[..|a|] == b;
      }
    }
  }

  /** Nothing lies within two separate paths. */
  lemma SeparateDisjoint(q: Path, a: Path, b: Path)
    requires Separate(a, b) && Within(q, a)
    ensures !Within(q, b)
  {
    if Within(q, b) { WithinBoth(q, a, b); }
  }

  /** A path within `a` is separate from everything `a` is separate from. */
  lemma SeparateBelow(x: Path, a: Path, b: Path)
    requires Separate(a, b) && Within(x, a)
    ensures Separate(x, b)
  {
    SeparateDisjoint(x, a, b);
    if Within(b, x) { WithinTrans(b, x, a); }
  }

  /** Two filesystems that agree at and below `p` have the same tree at `p`. */
  lemma SubtreeAgrees(a: Fs, b: Fs, p: Path)
    requires p in a
    requires forall q :: Within(q, p) ==> Lookup(a, q) == Lookup(b, q)
    ensures p in b && Subtree(a, p) == Subtree(b, p)
  {
    assert Within(p, p) && Lookup(a, p) == Lookup(b, p);
    var ta := Subtree(a, p);
    var tb := Subtree(b, p);
    forall k ensures k in ta <==> k in tb {
      if Within(p + k, p) { assert Lookup(a, p + k) == Lookup(b, p + k); }
    }
    forall k | k in ta ensures ta[k] == tb[k] {
      assert Lookup(a, p + k) == Lookup(b, p + k);
    }
  }

  /** Two filesystems that agree within `p` agree on its absence. */
  lemma AbsentAgrees(a: Fs, b: Fs, p: Path)
    requires Absent(a, p) && forall q :: Within(q, p) ==> Lookup(a, q) == Lookup(b, q)
    ensures Absent(b, p)
  {
    forall q | q in b ensures !Within(q, p) {
      assert Within(q, p) ==> Lookup(a, q) == Lookup(b, q);
    }
  }

  /** A directory created where nothing was holds the empty tree. */
  lemma FreshDirSubtree(fs: Fs, p: Path)
    requires Absent(fs, p) && MakeDirs(fs, p).Ok?
    ensures p in MakeDirs(fs, p).value && Subtree(MakeDirs(fs, p).value, p) == EmptyDir
  {
    var r := MakeDirs(fs, p).value;
    var t := Subtree(r, p);
    forall k | k in t ensures k == "" {
      assert p + k in r && Within(p + k, p);
      assert (p + k)[|p|..] == k;
    }
    assert p + "" == p;
  }

  /** The parent of a path that is separate from `x` does not lie within
      `x`, when `x` is longer than two characters. */
  lemma DirnameOutside(p: Path, x: Path)
    requires Separate(p, x) && |x| >= 3
    ensures !Within(Dirname(p), x)
  {
    var d := Dirname(p);
    if d != "." && d != "/" && d != "//" && d != x && |x| < |d| {
      assert p[..|x| + 1] == d[..|x| + 1];
    }
  }
}
