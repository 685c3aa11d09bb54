/** The job identity: a filesystem-safe slug of the cache source path
    followed by `-` and a random suffix (`createJobId` in
    src/extract-cache.ts and, identically, in src/inject-cache.ts).

    The slug is a pipeline of five string rewrites, each a function below
    with the contract of the regular-expression replacement it models. The
    random suffix (`Math.random().toString(36).slice(2, 10)`) is a parameter.
 */
module JobId {
  import Text

  /** The characters of `[\\/]`. */
  predicate IsSeparator(c: char) { c == '/' || c == '\\' }

  /** The characters of `[a-zA-Z0-9_.-]`. */
  predicate IsAllowed(c: char) {
    ('a' <= c <= 'z') || ('A' <= c <= 'Z') || ('0' <= c <= '9') || c == '_' || c == '.' || c == '-'
  }

  /** The characters a finished slug is made of: `[a-z0-9_.-]`. */
  predicate IsSlugChar(c: char) {
    ('a' <= c <= 'z') || ('0' <= c <= '9') || c == '_' || c == '.' || c == '-'
  }

  predicate NoSeparators(s: string) {
    forall i :: 0 <= i < |s| ==> !IsSeparator(s[i])
  }

  predicate IsSlug(s: string) {
    forall i :: 0 <= i < |s| ==> IsSlugChar(s[i])
  }

  /** The maximal slug length, from `slice(-40)`. */
  const MaxSlugLength := 40

  /** The slug used when the rewrites leave nothing. */
  const FallbackSlug := "cache"

  /** `.replace(/^[\\/]+/, '')`: the longest suffix that does not start with
      a separator; everything dropped is a separator. */
  function StripLeadingSeparators(s: string): (r: string)
    ensures |r| <= |s| && r == s[|s| - |r|..]
    ensures forall i :: 0 <= i < |s| - |r| ==> IsSeparator(s[i])
    ensures r == [] || !IsSeparator(r[0])
  {
    if s != [] && IsSeparator(s[0]) then StripLeadingSeparators(s[1..]) else s
  }

  /** `s` without its separators and dashes: the characters that the
      separator collapse keeps in order. */
  function Kept(s: string): string {
    if s == [] then []
    else (if IsSeparator(s[0]) || s[0] == '-' then [] else [s[0]]) + Kept(s[1..])
  }

  /** `.replace(/[\\/]+/g, '-')`: every maximal run of separators becomes a
      single dash. The result has no separator, keeps every other character in
      order, never grows, and is `s` itself when `s` has no separator. */
  function CollapseSeparators(s: string): (r: string)
    ensures NoSeparators(r)
    ensures Kept(r) == Kept(s)
    ensures |r| <= |s|
    ensures NoSeparators(s) ==> r == s
    ensures s != [] && IsSeparator(s[0]) ==> r != [] && r[0] == '-'
  {
    if s == [] then []
    else if IsSeparator(s[0]) then
      var rest := StripLeadingSeparators(s);
      KeptSkipsSeparators(s, |s| - |rest|);
      "-" + CollapseSeparators(rest)
    else
      [s[0]] + CollapseSeparators(s[1..])
  }

  /** The collapse rule itself: a run of separators between a part with no
      separator and a rest that does not start with one becomes exactly one
      dash, and the part before it is copied unchanged. */
  lemma CollapseRun(a: string, seps: string, b: string)
    requires NoSeparators(a)
    requires seps != [] && forall i :: 0 <= i < |seps| ==> IsSeparator(seps[i])
    requires b == [] || !IsSeparator(b[0])
    ensures CollapseSeparators(a + seps + b) == a + "-" + CollapseSeparators(b)
  {
    Text.AppendAssoc(a, seps, b);
    CollapseCopiesPrefix(a, seps + b);
    CollapseLeadingRun(seps, b);
    Text.AppendAssoc(a, "-", CollapseSeparators(b));
  }

  /** A part without separators is copied unchanged. */
  lemma {:induction false} CollapseCopiesPrefix(a: string, x: string)
    requires NoSeparators(a)
    ensures CollapseSeparators(a + x) == a + CollapseSeparators(x)
  {
    if a == [] {
      assert a + x == x;
      assert a + CollapseSeparators(x) == CollapseSeparators(x);
    } else {
      var c, rest := a[0], a[1..];
      assert a == [c] + rest;
      CollapseCopiesPrefix(rest, x);
      CollapseCopiesOne(c, rest, x);
    }
  }

  lemma CollapseCopiesOne(c: char, a: string, x: string)
    requires !IsSeparator(c)
    requires CollapseSeparators(a + x) == a + CollapseSeparators(x)
    ensures CollapseSeparators([c] + a + x) == [c] + a + CollapseSeparators(x)
  {
    Text.AppendAssoc([c], a, x);
    CollapseStep(c, a + x);
    Text.AppendAssoc([c], a, CollapseSeparators(x));
  }

  /** A leading run of separators becomes one dash. */
  lemma CollapseLeadingRun(seps: string, b: string)
    requires seps != [] && forall i :: 0 <= i < |seps| ==> IsSeparator(seps[i])
    requires b == [] || !IsSeparator(b[0])
    ensures CollapseSeparators(seps + b) == "-" + CollapseSeparators(b)
  {
    StripRun(seps, b);
    assert (seps + b)[0] == seps[0];
  }

  /** A character that is not a separator is copied to the front. */
  lemma CollapseStep(c: char, s: string)
    requires !IsSeparator(c)
    ensures CollapseSeparators([c] + s) == [c] + CollapseSeparators(s)
  {
    assert ([c] + s)[1..] == s;
  }

  /** Stripping the leading separators of a run followed by a non-separator
      leaves exactly what follows the run. */
  lemma StripRun(seps: string, b: string)
    requires forall i :: 0 <= i < |seps| ==> IsSeparator(seps[i])
    requires b == [] || !IsSeparator(b[0])
    ensures StripLeadingSeparators(seps + b) == b
  {
    var s := seps + b;
    assert s[|seps|..] == b;
    if b != [] {
      assert s[|seps|] == b[0];
    }
  }

  /** Dropping a prefix of separators does not change `Kept`. */
  lemma {:induction false} KeptSkipsSeparators(s: string, n: nat)
    requires n <= |s|
    requires forall i :: 0 <= i < n ==> IsSeparator(s[i])
    ensures Kept(s) == Kept(s[n..])
  {
    if n > 0 {
      KeptSkipsSeparators(s[1..], n - 1);
      assert s[1..][n - 1..] == s[n..];
    }
  }

  /** `.replace(/[^a-zA-Z0-9_.-]/g, '-')`: each disallowed character becomes a
      dash, position by position. */
  function ReplaceDisallowed(s: string): (r: string)
    ensures |r| == |s|
    ensures forall i :: 0 <= i < |s| ==> r[i] == (if IsAllowed(s[i]) then s[i] else '-')
  {
    if s == [] then [] else [if IsAllowed(s[0]) then s[0] else '-'] + ReplaceDisallowed(s[1..])
  }

  function LowerChar(c: char): char {
    if 'A' <= c <= 'Z' then (c as int - 'A' as int + 'a' as int) as char else c
  }

  /** `.toLowerCase()` on a string of allowed characters, where it only
      affects the ASCII letters `A`-`Z`. */
  function ToLower(s: string): (r: string)
    ensures |r| == |s|
    ensures forall i :: 0 <= i < |s| ==> r[i] == LowerChar(s[i])
  {
    if s == [] then [] else [LowerChar(s[0])] + ToLower(s[1..])
  }

  /** `.slice(-n)` for `n > 0`: the last `n` characters, or all of `s`. */
  function KeepLast(s: string, n: nat): (r: string)
    requires n > 0
    ensures |r| == (if |s| < n then |s| else n)
    ensures r == s[|s| - |r|..]
  {
    if |s| <= n then s else s[|s| - n..]
  }

  /** The slug of a cache source path. */
  function Slug(source: string): (r: string)
    ensures IsSlug(r)
    ensures |r| <= MaxSlugLength
  {
    var lowered := ToLower(ReplaceDisallowed(CollapseSeparators(StripLeadingSeparators(source))));
    LoweredIsSlug(CollapseSeparators(StripLeadingSeparators(source)));
    SuffixIsSlug(lowered, |lowered| - |KeepLast(lowered, MaxSlugLength)|);
    KeepLast(lowered, MaxSlugLength)
  }

  /** Replacing the disallowed characters and lowering the case leaves only
      slug characters. */
  lemma LoweredIsSlug(s: string)
    ensures IsSlug(ToLower(ReplaceDisallowed(s)))
  {
    var replaced := ReplaceDisallowed(s);
    var lowered := ToLower(replaced);
    forall i | 0 <= i < |lowered| ensures IsSlugChar(lowered[i]) {
      assert lowered[i] == LowerChar(replaced[i]);
    }
  }

  lemma SuffixIsSlug(s: string, k: nat)
    requires IsSlug(s) && k <= |s|
    ensures IsSlug(s[k..])
  {
    forall i | 0 <= i < |s| - k ensures IsSlugChar(s[k..][i]) {
      assert s[k..][i] == s[k + i];
    }
  }

  /** The part of the job identity before the suffix: the slug, or `cache`
      when the slug is empty (`slug || 'cache'`). */
  function Stem(source: string): (r: string)
    ensures r != [] && IsSlug(r) && |r| <= MaxSlugLength
    ensures Slug(source) != [] ==> r == Slug(source)
    ensures Slug(source) == [] ==> r == FallbackSlug
  {
    var slug := Slug(source);
    if slug == [] then FallbackIsSlug(); FallbackSlug else slug
  }

  lemma FallbackIsSlug()
    ensures FallbackSlug != [] && IsSlug(FallbackSlug) && |FallbackSlug| <= MaxSlugLength
  {
    forall i | 0 <= i < |FallbackSlug| ensures IsSlugChar(FallbackSlug[i]) {}
  }

  /** `createJobId`: the stem, then `-`, then the suffix. */
  function CreateJobId(source: string, unique: string): (r: string)
    ensures |r| == |Stem(source)| + 1 + |unique|
    ensures r[..|Stem(source)|] == Stem(source)
    ensures r[|Stem(source)|] == '-'
    ensures r[|Stem(source)| + 1..] == unique
  {
    Suffixed(Stem(source), unique)
  }

  /** `${stem}-${unique}`. */
  function Suffixed(stem: string, unique: string): (r: string)
    ensures |r| == |stem| + 1 + |unique|
    ensures r[..|stem|] == stem && r[|stem|] == '-' && r[|stem| + 1..] == unique
  {
    var r := stem + "-" + unique;
    assert r[..|stem|] == stem;
    assert r[|stem| + 1..] == unique;
    r
  }

  /** With the eight-character suffix of `slice(2, 10)` the job identity is
      never empty, at most 49 characters long, and made only of `[a-z0-9_.-]`
      when the suffix is (base-36 digits are). */
  lemma JobIdBounds(source: string, unique: string)
    requires |unique| <= 8
    ensures var id := CreateJobId(source, unique);
      && 0 < |id| <= MaxSlugLength + 1 + 8
      && (IsSlug(unique) ==> IsSlug(id))
  {
    var id := CreateJobId(source, unique);
    var stem := Stem(source);
    if IsSlug(unique) {
      forall i | 0 <= i < |id| ensures IsSlugChar(id[i]) {
        if i < |stem| { assert id[i] == id[..|stem|][i]; }
        else if i > |stem| { assert id[i] == id[|stem| + 1..][i - |stem| - 1]; }
      }
    }
  }

  /** A source that already is a slug of at most 40 characters is its own
      slug: the rewrites only change what they must. */
  lemma {:induction false} SlugOfSlug(source: string)
    requires IsSlug(source) && |source| <= MaxSlugLength
    ensures Slug(source) == source
  {
    assert NoSeparators(source);
    var stripped := StripLeadingSeparators(source);
    assert stripped == source;
    var collapsed := CollapseSeparators(stripped);
    var replaced := ReplaceDisallowed(collapsed);
    assert replaced == source;
    var lowered := ToLower(replaced);
    assert lowered == source;
  }

  /** The slug does not depend on leading separators: `/a/b` and `a/b` give
      the same job identity stem. */
  lemma {:induction false} SlugIgnoresLeadingSeparators(seps: string, source: string)
    requires forall i :: 0 <= i < |seps| ==> IsSeparator(seps[i])
    ensures Slug(seps + source) == Slug(source)
  {
    StripPrefix(seps, source);
  }

  lemma {:induction false} StripPrefix(seps: string, source: string)
    requires forall i :: 0 <= i < |seps| ==> IsSeparator(seps[i])
    ensures StripLeadingSeparators(seps + source) == StripLeadingSeparators(source)
  {
    if seps != [] {
      assert (seps + source)[1..] == seps[1..] + source;
      StripPrefix(seps[1..], source);
    } else {
      assert seps + source == source;
    }
  }
}
