/** Path strings and segments: splitting on "/", the segment-stack normalisation of
    path.resolve, and when one rendered path lies under another. */
module Paths {

  predicate HasSlash(s: string) {
    '/' in s
  }

  /** A segment a normalised path can hold. */
  predicate Plain(seg: string) {
    seg != "" && !HasSlash(seg) && seg != "." && seg != ".."
  }

  ghost predicate AllPlain(segs: seq<string>) {
    forall k :: 0 <= k < |segs| ==> Plain(segs[k])
  }

  /** The parts of a string between its slashes; one empty part for the empty string. */
  function Split(s: string): (parts: seq<string>)
    ensures |parts| > 0
    ensures forall k :: 0 <= k < |parts| ==> !HasSlash(parts[k])
  {
    if s == "" then [""]
    else
      var rest := Split(s[1..]);
      if s[0] == '/' then [""] + rest else [[s[0]] + rest[0]] + rest[1..]
  }

  /** Segments with a slash between each two. */
  function Join(segs: seq<string>): string {
    if segs == [] then ""
    else if |segs| == 1 then segs[0]
    else segs[0] + "/" + Join(segs[1..])
  }

  /** path.resolve on segments: empty and "." are skipped, ".." pops, anything else is pushed. */
  function Walk(at: seq<string>, parts: seq<string>): seq<string>
    decreases |parts|
  {
    if parts == [] then at
    else if parts[0] == "" || parts[0] == "." then Walk(at, parts[1..])
    else if parts[0] == ".." then Walk(if at == [] then [] else at[..|at| - 1], parts[1..])
    else Walk(at + [parts[0]], parts[1..])
  }

  /** The absolute path string of a list of segments. */
  function Render(segs: seq<string>): string {
    if segs == [] then "/" else Slashed(segs)
  }

  function Slashed(segs: seq<string>): string {
    if segs == [] then "" else "/" + segs[0] + Slashed(segs[1..])
  }

  // ---------- splitting undoes joining ----------

  lemma {:induction false} SplitFirst(a: string, b: string)
    requires !HasSlash(a)
    ensures Split(a + "/" + b) == [a] + Split(b)
  {
    if a == "" {
      assert a + "/" + b == "/" + b;
      assert ("/" + b)[1..] == b;
    } else {
      SplitFirst(a[1..], b);
      assert (a + "/" + b)[1..] == a[1..] + "/" + b;
      assert [a[0]] + a[1..] == a;
    }
  }

  lemma {:induction false} SplitWhole(a: string)
    requires !HasSlash(a)
    ensures Split(a) == [a]
  {
    if a != "" {
      SplitWhole(a[1..]);
      assert [a[0]] + a[1..] == a;
    }
  }

  /** Parts that a string can be split into. */
  ghost predicate SlashFree(parts: seq<string>) {
    forall k :: 0 <= k < |parts| ==> '/' !in parts[k]
  }

  lemma PlainSlashFree(segs: seq<string>)
    requires AllPlain(segs)
    ensures SlashFree(segs)
  {
    forall k | 0 <= k < |segs| ensures '/' !in segs[k] {
      assert Plain(segs[k]);
    }
  }

  lemma {:induction false} SplitJoin(segs: seq<string>)
    requires segs != [] && SlashFree(segs)
    ensures Split(Join(segs)) == segs
  {
    if |segs| == 1 {
      SplitWhole(segs[0]);
    } else {
      SplitJoin(segs[1..]);
      SplitFirst(segs[0], Join(segs[1..]));
      assert segs == [segs[0]] + segs[1..];
    }
  }

  /** And joining undoes splitting, for every string. */
  lemma {:induction false} JoinSplit(s: string)
    ensures Join(Split(s)) == s && SlashFree(Split(s))
  {
    if s != "" {
      var rest := Split(s[1..]);
      JoinSplit(s[1..]);
      assert s == [s[0]] + s[1..];
      if s[0] == '/' {
        assert ([""] + rest)[1..] == rest;
        assert Join(Split(s)) == "" + "/" + Join(rest);
      } else {
        JoinHead([s[0]], rest);
      }
    }
  }

  lemma JoinHead(x: string, rest: seq<string>)
    requires rest != []
    ensures Join([x + rest[0]] + rest[1..]) == x + Join(rest)
  {
    assert ([x + rest[0]] + rest[1..])[1..] == rest[1..];
    if |rest| > 1 {
      assert x + rest[0] + "/" + Join(rest[1..]) == x + (rest[0] + "/" + Join(rest[1..]));
    }
  }

  lemma {:induction false} JoinNonEmpty(segs: seq<string>)
    requires segs != [] && AllPlain(segs)
    ensures Join(segs) != "" && Join(segs)[0] == segs[0][0] && Join(segs)[0] != '/'
  {
    assert Plain(segs[0]);
    assert segs[0][0] in segs[0];
  }

  // ---------- normalisation ----------

  lemma {:induction false} WalkPlain(at: seq<string>, parts: seq<string>)
    requires AllPlain(at) && forall k :: 0 <= k < |parts| ==> !HasSlash(parts[k])
    ensures AllPlain(Walk(at, parts))
    decreases |parts|
  {
    if parts != [] {
      if parts[0] == "" || parts[0] == "." {
        WalkPlain(at, parts[1..]);
      } else if parts[0] == ".." {
        WalkPlain(if at == [] then [] else at[..|at| - 1], parts[1..]);
      } else {
        WalkPlain(at + [parts[0]], parts[1..]);
      }
    }
  }

  lemma {:induction false} WalkAppends(at: seq<string>, parts: seq<string>)
    requires AllPlain(parts)
    ensures Walk(at, parts) == at + parts
    decreases |parts|
  {
    if parts != [] {
      assert Plain(parts[0]);
      WalkAppends(at + [parts[0]], parts[1..]);
      assert at + parts == (at + [parts[0]]) + parts[1..];
    }
  }

  /** Segments are walked one after the other. */
  lemma {:induction false} WalkConcat(at: seq<string>, a: seq<string>, b: seq<string>)
    ensures Walk(at, a + b) == Walk(Walk(at, a), b)
    decreases |a|
  {
    if a == [] {
      assert a + b == b;
    } else {
      assert (a + b)[1..] == a[1..] + b && (a + b)[0] == a[0];
      if a[0] == "" || a[0] == "." {
        WalkConcat(at, a[1..], b);
      } else if a[0] == ".." {
        WalkConcat(if at == [] then [] else at[..|at| - 1], a[1..], b);
      } else {
        WalkConcat(at + [a[0]], a[1..], b);
      }
    }
  }

  /** Empty and "." segments do nothing, ".." takes back the plain segment before it and does nothing
      at the root. */
  lemma WalkRules(at: seq<string>, x: string, rest: seq<string>)
    ensures Walk(at, [""] + rest) == Walk(at, ["."] + rest) == Walk(at, rest)
    ensures Plain(x) ==> Walk(at, [x, ".."] + rest) == Walk(at, rest)
    ensures Walk([], [".."] + rest) == Walk([], rest)
  {
    assert ([""] + rest)[1..] == rest && (["."] + rest)[1..] == rest && ([".."] + rest)[1..] == rest;
    if Plain(x) {
      assert ([x, ".."] + rest)[1..] == [".."] + rest;
      assert (at + [x])[..|at + [x]| - 1] == at;
    }
  }

  // ---------- containment of strings and of segments ----------

  /** Comparing two rendered paths segment by segment: with no slash inside a segment, a
      string prefix that ends at a slash is a segment prefix. */
  lemma {:induction false} SlashedPrefix(b: seq<string>, a: seq<string>, tail: string)
    requires AllPlain(a) && AllPlain(b)
    requires tail == "" || tail[0] == '/'
    ensures tail == "" ==> (Slashed(a) == Slashed(b) <==> a == b)
    ensures tail == "/" ==> (Slashed(b) + tail <= Slashed(a) <==> b <= a && a != b)
  {
    if b == [] {
      if a != [] {
        assert Slashed(a)[0] == '/';
      }
    } else if a == [] {
      assert |Slashed(b)| > 0;
    } else {
      SlashedPrefix(b[1..], a[1..], tail);
      assert Plain(a[0]) && Plain(b[0]);
      assert a == [a[0]] + a[1..] && b == [b[0]] + b[1..];
      var sa, sb := Slashed(a[1..]), Slashed(b[1..]) + tail;
      assert Slashed(a) == "/" + a[0] + sa;
      assert Slashed(b) + tail == "/" + b[0] + sb;
      SlashedStart(a[1..]);
      SlashedStart(b[1..]);
      HeadsAgree(a[0], sa, b[0], sb);
      if tail == "" {
        assert sb == Slashed(b[1..]);
        assert Slashed(b) + tail == Slashed(b);
      }
      if b[0] == a[0] {
        assert Slashed(b) + tail <= Slashed(a) <==> sb <= sa by { CommonHead("/" + a[0], sb, sa); }
        assert Slashed(b) + tail == Slashed(a) <==> sb == sa by { CommonHead("/" + a[0], sb, sa); }
        assert b <= a <==> b[1..] <= a[1..] by { CommonHead([a[0]], b[1..], a[1..]); }
      }
    }
  }

  lemma SlashedStart(segs: seq<string>)
    ensures Slashed(segs) == "" || Slashed(segs)[0] == '/'
  {
  }

  lemma CommonHead<T(!new)>(h: seq<T>, x: seq<T>, y: seq<T>)
    ensures h + x <= h + y <==> x <= y
    ensures h + x == h + y <==> x == y
  {
    assert (h + x)[|h|..] == x && (h + y)[|h|..] == y;
    if h + x <= h + y {
      assert (h + y)[..|h + x|] == h + x;
      assert y[..|x|] == (h + y)[|h|..|h| + |x|];
      assert (h + y)[..|h + x|][|h|..] == x;
    }
  }

  /** Two slash-free heads followed by a slash or the end are equal if the strings overlap. */
  lemma HeadsAgree(p: string, x: string, q: string, y: string)
    requires !HasSlash(p) && !HasSlash(q)
    requires (x == "" || x[0] == '/') && (y == "" || y[0] == '/')
    ensures "/" + q + y == "/" + p + x ==> p == q
    ensures "/" + q + y <= "/" + p + x && y != "" ==> p == q
  {
    var u, v := "/" + p + x, "/" + q + y;
    if |p| == |q| {
      assert u[1..1 + |p|] == p && v[1..1 + |q|] == q;
    } else if |p| < |q| {
      assert v[1 + |p|] == q[|p|] && q[|p|] in q;
      assert x != "" ==> u[1 + |p|] == '/';
    } else {
      assert u[1 + |q|] == p[|q|] && p[|q|] in p;
      assert y != "" ==> v[1 + |q|] == '/';
    }
  }

  /** The string test of a containment check is the segment test: a sibling that merely shares
      the name prefix is outside. */
  lemma InsideIffPrefix(base: seq<string>, path: seq<string>)
    requires AllPlain(base) && AllPlain(path) && base != []
    ensures Render(path) == Render(base) || Render(base) + "/" <= Render(path) <==> base <= path
  {
    SlashedPrefix(base, path, "");
    SlashedPrefix(base, path, "/");
    if path == [] {
      assert |Slashed(base)| >= 2 by {
        assert Plain(base[0]);
      }
    }
  }
}
