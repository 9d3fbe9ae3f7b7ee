/** `slugify` (src/utils/createSlug.ts): lower-case the title, replace every
    maximal run of characters outside [a-z0-9] by one '-', then strip a
    leading and a trailing '-'. Lower-casing is modelled for ASCII only. */
module CreateSlug {
  import opened Common

  predicate IsSlugChar(c: char) { IsAsciiLower(c) || IsDigit(c) }

  function LowerChar(c: char): (r: char)
    ensures IsAsciiUpper(c) ==> IsAsciiLower(r) && r as int == c as int + 32
    ensures !IsAsciiUpper(c) ==> r == c
  {
    if IsAsciiUpper(c) then (c as int + 32) as char else c
  }

  /** `toLowerCase`, ASCII letters only. */
  function Lower(s: string): (r: string)
    ensures |r| == |s|
    ensures forall i :: 0 <= i < |s| ==> r[i] == LowerChar(s[i])
  {
    seq(|s|, i requires 0 <= i < |s| => LowerChar(s[i]))
  }

  /** `.replace(/[^a-z0-9]+/g, "-")`: each maximal run of non-slug characters
      becomes a single '-'. Read left to right, a non-slug character followed
      by another one is dropped, and the last one of a run becomes '-'. */
  function CollapseRuns(s: string): (r: string)
  {
    if s == [] then []
    else if IsSlugChar(s[0]) then [s[0]] + CollapseRuns(s[1..])
    else if |s| > 1 && !IsSlugChar(s[1]) then CollapseRuns(s[1..])
    else ['-'] + CollapseRuns(s[1..])
  }

  /** `.replace(/(^-|-$)+/g, "")` on a string with no two adjacent '-':
      one leading and one trailing '-' are removed. */
  function TrimDashes(s: string): (r: string)
  {
    var a := if s != [] && s[0] == '-' then s[1..] else s;
    if a != [] && a[|a| - 1] == '-' then a[..|a| - 1] else a
  }

  function SlugOf(title: string): string {
    TrimDashes(CollapseRuns(Lower(title)))
  }

  /** `slugify(title)`: a null title yields no slug (optional chaining). */
  function Slugify(title: Option<string>): (r: Option<string>)
    ensures r.None? <==> title.None?
    ensures title.Some? ==> IsSlug(r.value)
  {
    match title
    case None => None
    case Some(t) =>
      SlugIsSlug(t);
      Some(SlugOf(t))
  }

  /** The shape of every slug: only [a-z0-9-], no "--", no '-' at either end. */
  predicate IsSlug(s: string) {
    && (forall i :: 0 <= i < |s| ==> IsSlugChar(s[i]) || s[i] == '-')
    && (forall i :: 0 <= i < |s| - 1 ==> !(s[i] == '-' && s[i + 1] == '-'))
    && (s != [] ==> s[0] != '-' && s[|s| - 1] != '-')
  }

  /** Characters, in order, of `s` that are letters or digits. */
  function SlugChars(s: string): (r: string)
    ensures forall i :: 0 <= i < |r| ==> IsSlugChar(r[i])
  {
    if s == [] then []
    else if IsSlugChar(s[0]) then [s[0]] + SlugChars(s[1..])
    else SlugChars(s[1..])
  }

  // ---- properties of CollapseRuns ----

  lemma {:induction false} CollapseShape(s: string)
    ensures var r := CollapseRuns(s);
      && (forall i :: 0 <= i < |r| ==> IsSlugChar(r[i]) || r[i] == '-')
      && (forall i :: 0 <= i < |r| - 1 ==> !(r[i] == '-' && r[i + 1] == '-'))
      && (r != [] <==> s != [])
      && (r != [] ==> (r[0] == '-' <==> !IsSlugChar(s[0])))
  {
    if s != [] {
      CollapseShape(s[1..]);
      var rt := CollapseRuns(s[1..]);
      var r := CollapseRuns(s);
      if IsSlugChar(s[0]) || !(|s| > 1 && !IsSlugChar(s[1])) {
        assert r == [r[0]] + rt;
        forall i | 0 <= i < |r| - 1 ensures !(r[i] == '-' && r[i + 1] == '-') {
          if i > 0 {
            assert r[i] == rt[i - 1] && r[i + 1] == rt[i];
          }
        }
      }
    }
  }

  lemma {:induction false} CollapseKeepsSlugChars(s: string)
    ensures SlugChars(CollapseRuns(s)) == SlugChars(s)
  {
    if s != [] {
      CollapseKeepsSlugChars(s[1..]);
      if IsSlugChar(s[0]) {
        assert ([s[0]] + CollapseRuns(s[1..]))[1..] == CollapseRuns(s[1..]);
      } else if !(|s| > 1 && !IsSlugChar(s[1])) {
        SlugCharsDash(CollapseRuns(s[1..]));
      }
    }
  }

  lemma {:induction false} SlugCharsDash(s: string)
    ensures SlugChars(['-'] + s) == SlugChars(s)
  {
    assert (['-'] + s)[1..] == s;
  }

  lemma {:induction false} SlugCharsSnoc(s: string, c: char)
    ensures SlugChars(s + [c]) == SlugChars(s) + (if IsSlugChar(c) then [c] else [])
    decreases |s|
  {
    if s == [] {
      assert s + [c] == [c];
      assert [c][1..] == [];
    } else {
      assert (s + [c])[1..] == s[1..] + [c];
      SlugCharsSnoc(s[1..], c);
    }
  }

  // ---- where the dashes go ----

  /** A string holds a letter or digit. */
  predicate HasSlugChar(s: string) {
    exists i :: 0 <= i < |s| && IsSlugChar(s[i])
  }

  predicate NoSlugChar(s: string) {
    forall i :: 0 <= i < |s| ==> !IsSlugChar(s[i])
  }

  /** Collapsing ends where a slug character ends the input. */
  lemma {:induction false} CollapseEndsInSlugChar(p: string)
    requires p != [] && IsSlugChar(p[|p| - 1])
    ensures CollapseRuns(p) != [] && CollapseRuns(p)[|CollapseRuns(p)| - 1] == p[|p| - 1]
  {
    if |p| > 1 {
      CollapseEndsInSlugChar(p[1..]);
    }
  }

  /** Collapsing splits after a slug character. */
  lemma {:induction false} CollapseConcat(p: string, q: string)
    requires p == [] || IsSlugChar(p[|p| - 1])
    ensures CollapseRuns(p + q) == CollapseRuns(p) + CollapseRuns(q)
  {
    if p == [] {
      assert p + q == q;
    } else {
      assert (p + q)[1..] == p[1..] + q;
      if |p| > 1 {
        assert (p + q)[1] == p[1];
        CollapseConcat(p[1..], q);
      }
    }
  }

  /** A non-empty gap before a slug character collapses to one '-'. */
  lemma {:induction false} CollapseOfGap(g: string, q: string)
    requires g != [] && NoSlugChar(g)
    requires q == [] || IsSlugChar(q[0])
    ensures CollapseRuns(g + q) == "-" + CollapseRuns(q)
  {
    assert (g + q)[1..] == g[1..] + q;
    if |g| > 1 {
      assert (g + q)[1] == g[1];
      CollapseOfGap(g[1..], q);
    }
  }

  /** A string holding a slug character ends with its last one and a gap. */
  lemma {:induction false} SplitAtLastSlugChar(x: string) returns (x1: string, t: string)
    requires HasSlugChar(x)
    ensures x == x1 + t && x1 != [] && IsSlugChar(x1[|x1| - 1]) && NoSlugChar(t)
    decreases |x|
  {
    if IsSlugChar(x[|x| - 1]) {
      x1, t := x, [];
    } else {
      var x1', t' := SplitAtLastSlugChar(x[..|x| - 1]);
      x1, t := x1', t' + [x[|x| - 1]];
      assert x == x[..|x| - 1] + [x[|x| - 1]];
    }
  }

  /** Trimming a collapsed string whose last character is a slug character
      followed by at most one '-'. */
  lemma TrimBeforeGap(p: string, d: string)
    requires p != [] && p[|p| - 1] != '-'
    requires d == [] || d == "-"
    ensures TrimDashes(p + d) == TrimDashes(p)
  {
    if p[0] == '-' {
      assert (p + d)[1..] == p[1..] + d;
    }
  }

  lemma TrimAfterGap(d: string, q: string)
    requires q != [] && q[0] != '-'
    requires d == [] || d == "-"
    ensures TrimDashes(d + q) == TrimDashes(q)
  {
    if d == "-" {
      assert (d + q)[1..] == q;
    } else {
      assert d + q == q;
    }
  }

  lemma TrimJoin(p: string, q: string)
    requires p != [] && p[|p| - 1] != '-'
    requires q != [] && q[0] != '-'
    ensures TrimDashes(p + "-" + q) == TrimDashes(p) + "-" + TrimDashes(q)
  {
    var p' := if p[0] == '-' then p[1..] else p;
    var q' := if q[|q| - 1] == '-' then q[..|q| - 1] else q;
    assert TrimDashes(p) == p' by {
      assert p' == [] || p'[|p'| - 1] == p[|p| - 1];
    }
    assert TrimDashes(q) == q';
    var a := p' + "-" + q;
    assert a == (if p[0] == '-' then (p + "-" + q)[1..] else p + "-" + q);
    assert a[|a| - 1] == q[|q| - 1];
    assert TrimDashes(p + "-" + q) == p' + "-" + q' by {
      if q[|q| - 1] == '-' {
        assert a[..|a| - 1] == p' + "-" + q';
      }
    }
  }

  /** A string holding a slug character starts with a gap and its first
      one. */
  lemma {:induction false} SplitAtFirstSlugChar(y: string) returns (u: string, y1: string)
    requires HasSlugChar(y)
    ensures y == u + y1 && y1 != [] && IsSlugChar(y1[0]) && NoSlugChar(u)
    decreases |y|
  {
    if IsSlugChar(y[0]) {
      u, y1 := [], y;
    } else {
      var u', y1' := SplitAtFirstSlugChar(y[1..]);
      u, y1 := [y[0]] + u', y1';
      assert y == [y[0]] + y[1..];
    }
  }

  /** What a trailing gap adds to the collapse: nothing or one '-'. */
  lemma CollapseWithGapAfter(x1: string, t: string) returns (d: string)
    requires x1 != [] && IsSlugChar(x1[|x1| - 1]) && NoSlugChar(t)
    ensures d == [] || d == "-"
    ensures CollapseRuns(x1 + t) == CollapseRuns(x1) + d
  {
    CollapseConcat(x1, t);
    if t != [] {
      CollapseOfGap(t, []);
      assert t + [] == t;
      d := "-";
    } else {
      d := [];
    }
  }

  /** What a leading gap adds to the collapse: nothing or one '-'. */
  lemma CollapseWithGapBefore(u: string, y1: string) returns (d: string)
    requires y1 != [] && IsSlugChar(y1[0]) && NoSlugChar(u)
    ensures d == [] || d == "-"
    ensures CollapseRuns(u + y1) == d + CollapseRuns(y1)
  {
    if u != [] {
      CollapseOfGap(u, y1);
      d := "-";
    } else {
      assert u + y1 == y1;
      d := [];
    }
  }

  lemma CollapseStartsWithSlugChar(y1: string)
    requires y1 != [] && IsSlugChar(y1[0])
    ensures CollapseRuns(y1) != [] && CollapseRuns(y1)[0] == y1[0]
  {
  }

  lemma TrimCollapseLeft(x1: string, t: string)
    requires x1 != [] && IsSlugChar(x1[|x1| - 1]) && NoSlugChar(t)
    ensures TrimDashes(CollapseRuns(x1 + t)) == TrimDashes(CollapseRuns(x1))
  {
    var d := CollapseWithGapAfter(x1, t);
    CollapseEndsInSlugChar(x1);
    TrimBeforeGap(CollapseRuns(x1), d);
  }

  lemma TrimCollapseRight(u: string, y1: string)
    requires y1 != [] && IsSlugChar(y1[0]) && NoSlugChar(u)
    ensures TrimDashes(CollapseRuns(u + y1)) == TrimDashes(CollapseRuns(y1))
  {
    var d := CollapseWithGapBefore(u, y1);
    CollapseStartsWithSlugChar(y1);
    TrimAfterGap(d, CollapseRuns(y1));
  }

  lemma CollapseMiddle(x1: string, mid: string, y1: string)
    requires x1 != [] && IsSlugChar(x1[|x1| - 1])
    requires mid != [] && NoSlugChar(mid)
    requires y1 != [] && IsSlugChar(y1[0])
    ensures CollapseRuns(x1 + mid + y1) == CollapseRuns(x1) + "-" + CollapseRuns(y1)
  {
    assert x1 + mid + y1 == x1 + (mid + y1);
    CollapseConcat(x1, mid + y1);
    CollapseOfGap(mid, y1);
  }

  lemma TrimCollapseMiddle(x1: string, mid: string, y1: string)
    requires x1 != [] && IsSlugChar(x1[|x1| - 1])
    requires mid != [] && NoSlugChar(mid)
    requires y1 != [] && IsSlugChar(y1[0])
    ensures TrimDashes(CollapseRuns(x1 + mid + y1))
         == TrimDashes(CollapseRuns(x1)) + "-" + TrimDashes(CollapseRuns(y1))
  {
    calc {
      TrimDashes(CollapseRuns(x1 + mid + y1));
    == { CollapseMiddle(x1, mid, y1); }
      TrimDashes(CollapseRuns(x1) + "-" + CollapseRuns(y1));
    == { CollapseEndsInSlugChar(x1);
         CollapseStartsWithSlugChar(y1);
         TrimJoin(CollapseRuns(x1), CollapseRuns(y1)); }
      TrimDashes(CollapseRuns(x1)) + "-" + TrimDashes(CollapseRuns(y1));
    }
  }

  /** On lower-cased text: a gap between two groups that each hold a letter
      or digit becomes exactly one '-'. */
  lemma CollapseGap(x: string, m: string, y: string)
    requires HasSlugChar(x) && HasSlugChar(y)
    requires m != [] && NoSlugChar(m)
    ensures TrimDashes(CollapseRuns(x + m + y))
         == TrimDashes(CollapseRuns(x)) + "-" + TrimDashes(CollapseRuns(y))
  {
    var x1, t := SplitAtLastSlugChar(x);
    var u, y1 := SplitAtFirstSlugChar(y);
    var mid := t + m + u;
    assert NoSlugChar(mid) by {
      forall i | 0 <= i < |mid| ensures !IsSlugChar(mid[i]) {
        if i < |t| { assert mid[i] == t[i]; }
        else if i < |t| + |m| { assert mid[i] == m[i - |t|]; }
        else { assert mid[i] == u[i - |t| - |m|]; }
      }
    }
    assert x + m + y == x1 + mid + y1;
    TrimCollapseMiddle(x1, mid, y1);
    TrimCollapseLeft(x1, t);
    TrimCollapseRight(u, y1);
  }

  lemma LowerConcat(a: string, b: string)
    ensures Lower(a + b) == Lower(a) + Lower(b)
  {
  }

  /** Between two groups that each hold a letter or digit, a gap of other
      characters becomes exactly one '-' of the slug. */
  lemma SlugOfGap(a: string, gap: string, b: string)
    requires HasSlugChar(Lower(a)) && HasSlugChar(Lower(b))
    requires gap != [] && NoSlugChar(Lower(gap))
    ensures SlugOf(a + gap + b) == SlugOf(a) + "-" + SlugOf(b)
  {
    LowerConcat(a + gap, b);
    LowerConcat(a, gap);
    CollapseGap(Lower(a), Lower(gap), Lower(b));
  }

  // ---- properties of slugs ----

  /** A string made of slug characters and single '-'s. */
  predicate DashSeparated(s: string) {
    && (forall i :: 0 <= i < |s| ==> IsSlugChar(s[i]) || s[i] == '-')
    && (forall i :: 0 <= i < |s| - 1 ==> !(s[i] == '-' && s[i + 1] == '-'))
  }

  lemma DashSeparatedSlice(s: string, lo: nat, hi: nat)
    requires lo <= hi <= |s| && DashSeparated(s)
    ensures DashSeparated(s[lo..hi])
  {
    var u := s[lo..hi];
    forall i | 0 <= i < |u| - 1 ensures !(u[i] == '-' && u[i + 1] == '-') {
      assert u[i] == s[lo + i] && u[i + 1] == s[lo + i + 1];
    }
  }

  lemma TrimIsSlug(c: string)
    requires DashSeparated(c)
    ensures IsSlug(TrimDashes(c))
  {
    var a := if c != [] && c[0] == '-' then c[1..] else c;
    DashSeparatedSlice(c, if c != [] && c[0] == '-' then 1 else 0, |c|);
    assert a != [] ==> a[0] != '-';
    if a != [] && a[|a| - 1] == '-' {
      DashSeparatedSlice(a, 0, |a| - 1);
      var b := a[..|a| - 1];
      assert b != [] ==> b[0] == a[0];
      assert b != [] ==> b[|b| - 1] == a[|a| - 2];
    }
  }

  lemma SlugIsSlug(t: string)
    ensures IsSlug(SlugOf(t))
  {
    CollapseShape(Lower(t));
    TrimIsSlug(CollapseRuns(Lower(t)));
  }

  lemma TrimKeepsSlugChars(c: string)
    ensures SlugChars(TrimDashes(c)) == SlugChars(c)
  {
    var a := if c != [] && c[0] == '-' then c[1..] else c;
    if c != [] && c[0] == '-' {
      assert c == ['-'] + a;
      SlugCharsDash(a);
    }
    if a != [] && a[|a| - 1] == '-' {
      assert a == a[..|a| - 1] + ['-'];
      SlugCharsSnoc(a[..|a| - 1], '-');
    }
  }

  /** Letters and digits of the title survive in order, ASCII upper case
      lowered; everything else is gone. */
  lemma KeepsLettersAndDigits(t: string)
    ensures SlugChars(SlugOf(t)) == SlugChars(Lower(t))
  {
    CollapseKeepsSlugChars(Lower(t));
    TrimKeepsSlugChars(CollapseRuns(Lower(t)));
  }

  /** A title without letters or digits yields the empty slug. */
  lemma NoLettersGivesEmpty(t: string)
    requires forall i :: 0 <= i < |t| ==> !IsSlugChar(LowerChar(t[i]))
    ensures SlugOf(t) == ""
  {
    var l := Lower(t);
    if l != [] {
      assert NoSlugChar(l);
      CollapseOfGap(l, []);
      assert l + [] == l;
    }
  }

  lemma {:induction false} CollapseOfSlug(s: string)
    requires forall i :: 0 <= i < |s| ==> IsSlugChar(s[i]) || s[i] == '-'
    requires forall i :: 0 <= i < |s| - 1 ==> !(s[i] == '-' && s[i + 1] == '-')
    ensures CollapseRuns(s) == s
  {
    if s != [] {
      assert s[0] == '-' && |s| > 1 ==> IsSlugChar(s[1]);
      CollapseOfSlug(s[1..]);
    }
  }

  lemma LowerOfSlug(s: string)
    requires IsSlug(s)
    ensures Lower(s) == s
  {
  }

  /** Slugifying a slug changes nothing. */
  lemma SlugifyIdempotent(t: string)
    ensures SlugOf(SlugOf(t)) == SlugOf(t)
  {
    var s := SlugOf(t);
    SlugIsSlug(t);
    LowerOfSlug(s);
    CollapseOfSlug(s);
  }
}
