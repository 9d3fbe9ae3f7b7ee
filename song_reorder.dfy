/** The drag-and-drop song list (src/components/SongReorder.tsx): `onDragEnd`
    copies the current list into a fresh array, splices the dragged song out
    at the source index and back in at the destination index, stores the
    result as the new list and hands it to the `onOrderChange` callback. */
module SongReorder {
  import opened Common

  /** The component's own song shape; its id is declared as a string. */
  datatype Song = Song(id: string, title: string, artist: Option<string>, coverUrl: Option<string>)

  // ---- the move, as a function on sequences ----

  /** `s` without its element at index `i`. */
  function RemoveAt<T>(s: seq<T>, i: nat): (r: seq<T>)
    requires i < |s|
    ensures |r| == |s| - 1
  {
    s[..i] + s[i + 1..]
  }

  /** `s` with `x` inserted before index `j`. */
  function InsertAt<T>(s: seq<T>, j: nat, x: T): (r: seq<T>)
    requires j <= |s|
    ensures |r| == |s| + 1
  {
    s[..j] + [x] + s[j..]
  }

  /** The list after dragging the song at `src` to `dst`. */
  function Moved<T>(s: seq<T>, src: nat, dst: nat): (r: seq<T>)
    requires src < |s| && dst < |s|
    ensures |r| == |s|
  {
    InsertAt(RemoveAt(s, src), dst, s[src])
  }

  /** The dragged song lands at the destination index. */
  lemma MovedLandsAtDestination<T>(s: seq<T>, src: nat, dst: nat)
    requires src < |s| && dst < |s|
    ensures Moved(s, src, dst)[dst] == s[src]
  {
  }

  /** Every other song keeps its position, except those between source and
      destination, which shift by one towards the source. */
  lemma MovedPositions<T>(s: seq<T>, src: nat, dst: nat, k: nat)
    requires src < |s| && dst < |s| && k < |s| && k != dst
    ensures var r := Moved(s, src, dst);
      && ((k < src && k < dst) || (k > src && k > dst) ==> r[k] == s[k])
      && (src <= k < dst ==> r[k] == s[k + 1])
      && (dst < k <= src ==> r[k] == s[k - 1])
  {
    var t := RemoveAt(s, src);
    assert forall m :: 0 <= m < |t| ==> t[m] == if m < src then s[m] else s[m + 1];
  }

  /** The move is a permutation: the same songs, each as often as before. */
  lemma MovedIsPermutation<T>(s: seq<T>, src: nat, dst: nat)
    requires src < |s| && dst < |s|
    ensures multiset(Moved(s, src, dst)) == multiset(s)
  {
    var x := s[src];
    var t := RemoveAt(s, src);
    assert s == s[..src] + ([x] + s[src + 1..]);
    assert multiset(s) == multiset(s[..src]) + multiset{x} + multiset(s[src + 1..]);
    assert multiset(t) == multiset(s[..src]) + multiset(s[src + 1..]);
    var u := Moved(s, src, dst);
    assert u == t[..dst] + ([x] + t[dst..]);
    assert multiset(u) == multiset(t[..dst]) + multiset{x} + multiset(t[dst..]);
    assert t == t[..dst] + t[dst..];
    assert multiset(t) == multiset(t[..dst]) + multiset(t[dst..]);
    assert multiset(u) == multiset(t) + multiset{x};
    assert multiset(s) == multiset(t) + multiset{x};
  }

  /** Dropping a song where it was picked up leaves the list as it was. */
  lemma MovedInPlace<T>(s: seq<T>, i: nat)
    requires i < |s|
    ensures Moved(s, i, i) == s
  {
    assert RemoveAt(s, i)[..i] == s[..i];
    assert RemoveAt(s, i)[i..] == s[i + 1..];
  }

  // ---- Array.prototype.splice on an array prefix ----

  /** `a.splice(i, 1)` on the list held in `a[..len]`: returns the removed
      element and leaves the shortened list in `a[..len - 1]`. */
  method SpliceOut<T>(a: array<T>, len: nat, i: nat) returns (x: T)
    requires i < len <= a.Length
    modifies a
    ensures x == old(a[i])
    ensures a[..len - 1] == RemoveAt(old(a[..len]), i)
    ensures a[len..] == old(a[len..])
  {
    x := a[i];
    var k := i;
    while k < len - 1
      invariant i <= k <= len - 1
      invariant forall m :: 0 <= m < i ==> a[m] == old(a[m])
      invariant forall m :: i <= m < k ==> a[m] == old(a[m + 1])
      invariant forall m :: k <= m < a.Length ==> a[m] == old(a[m])
    {
      a[k] := a[k + 1];
      k := k + 1;
    }
    assert forall m :: 0 <= m < len - 1 ==> a[..len - 1][m] == RemoveAt(old(a[..len]), i)[m];
  }

  /** `a.splice(j, 0, x)` on the list held in `a[..len]`: the longer list is
      left in `a[..len + 1]`. */
  method SpliceIn<T>(a: array<T>, len: nat, j: nat, x: T)
    requires j <= len < a.Length
    modifies a
    ensures a[..len + 1] == InsertAt(old(a[..len]), j, x)
    ensures a[len + 1..] == old(a[len + 1..])
  {
    var k := len;
    while k > j
      invariant j <= k <= len
      invariant forall m :: 0 <= m < k ==> a[m] == old(a[m])
      invariant forall m :: k < m <= len ==> a[m] == old(a[m - 1])
      invariant forall m :: len < m < a.Length ==> a[m] == old(a[m])
    {
      a[k] := a[k - 1];
      k := k - 1;
    }
    a[j] := x;
    assert forall m :: 0 <= m < len + 1 ==> a[..len + 1][m] == InsertAt(old(a[..len]), j, x)[m];
  }

  /** A song list as the component holds it. `delivered` records, in order,
      every list handed to the `onOrderChange` callback. */
  class SongList {
    var songs: seq<Song>
    const hasOrderCallback: bool
    var delivered: seq<seq<Song>>

    constructor (initialSongs: seq<Song>, hasOrderCallback: bool)
      ensures songs == initialSongs && this.hasOrderCallback == hasOrderCallback
      ensures delivered == []
    {
      songs := initialSongs;
      this.hasOrderCallback := hasOrderCallback;
      delivered := [];
    }

    /** The effect that re-synchronises the list when the parent passes new songs. */
    method SyncInitialSongs(initialSongs: seq<Song>)
      modifies this
      ensures songs == initialSongs && delivered == old(delivered)
    {
      songs := initialSongs;
    }

    /** `onDragEnd`: `destination` is None when the song was dropped outside
        the list. A destination beyond the shortened list appends, as
        `splice` does. */
    method OnDragEnd(source: nat, destination: Option<nat>)
      requires source < |songs|
      modifies this
      ensures destination.None? ==> songs == old(songs) && delivered == old(delivered)
      ensures destination.Some? ==>
        var dst := if destination.value < |old(songs)| then destination.value else |old(songs)| - 1;
        && songs == Moved(old(songs), source, dst)
        && delivered == old(delivered) + (if hasOrderCallback then [songs] else [])
    {
      if destination.None? {
        return;
      }
      var current := songs;
      var n := |current|;
      var reordered := new Song[n](i requires 0 <= i < n => current[i]);
      assert reordered[..] == current;
      var moved := SpliceOut(reordered, n, source);
      ghost var removed := reordered[..n - 1];
      assert moved == current[source] && removed == RemoveAt(current, source);
      var dst := if destination.value < n then destination.value else n - 1;
      SpliceIn(reordered, n - 1, dst, moved);
      assert reordered[..n] == InsertAt(removed, dst, moved);
      assert reordered[..] == reordered[..n];
      songs := reordered[..];
      if hasOrderCallback {
        delivered := delivered + [reordered[..]];
      }
    }
  }

  /** Collapses each maximal run of whitespace into one '-'
      (`title.replace(/\s+/g, '-')`): a whitespace character followed by
      more whitespace is dropped, and the last one of a run becomes '-'. */
  function DashWhitespace(s: string): (r: string)
  {
    if s == [] then []
    else if !IsWhitespace(s[0]) then [s[0]] + DashWhitespace(s[1..])
    else if |s| > 1 && IsWhitespace(s[1]) then DashWhitespace(s[1..])
    else ['-'] + DashWhitespace(s[1..])
  }

  /** The route a song card opens: `/songs/<title with dashes>-<id>`. */
  function SongLink(song: Song): (r: string)
    ensures |r| >= 8 + |song.id|
    ensures r[..7] == "/songs/"
    ensures r[|r| - |song.id| - 1] == '-'
    ensures r[7..|r| - |song.id| - 1] == DashWhitespace(song.title)
    ensures r[|r| - |song.id|..] == song.id
    ensures forall i :: 7 <= i < |r| - |song.id| ==> !IsWhitespace(r[i])
  {
    var d := DashWhitespace(song.title);
    DashWhitespaceHasNoWhitespace(song.title);
    "/songs/" + d + "-" + song.id
  }

  function NonWhitespace(s: string): string {
    if s == [] then []
    else if IsWhitespace(s[0]) then NonWhitespace(s[1..])
    else [s[0]] + NonWhitespace(s[1..])
  }

  lemma {:induction false} DashWhitespaceHasNoWhitespace(s: string)
    ensures forall i :: 0 <= i < |DashWhitespace(s)| ==> !IsWhitespace(DashWhitespace(s)[i])
  {
    if s != [] {
      DashWhitespaceHasNoWhitespace(s[1..]);
    }
  }

  /** Apart from dashes, the link text is exactly the title's non-whitespace
      characters, in order, and it is never longer than the title. */
  lemma {:induction false} DashWhitespaceKeepsText(s: string)
    ensures Without(DashWhitespace(s), '-') == Without(NonWhitespace(s), '-')
    ensures |DashWhitespace(s)| <= |s|
  {
    if s != [] {
      DashWhitespaceKeepsText(s[1..]);
      if !IsWhitespace(s[0]) {
        WithoutAppend([s[0]], DashWhitespace(s[1..]), '-');
        WithoutAppend([s[0]], NonWhitespace(s[1..]), '-');
      } else if !(|s| > 1 && IsWhitespace(s[1])) {
        WithoutAppend(['-'], DashWhitespace(s[1..]), '-');
      }
    }
  }

  /** A title without whitespace is used as is. */
  lemma {:induction false} DashWhitespaceNoWhitespace(s: string)
    requires forall i :: 0 <= i < |s| ==> !IsWhitespace(s[i])
    ensures DashWhitespace(s) == s
  {
    if s != [] {
      DashWhitespaceNoWhitespace(s[1..]);
    }
  }

  /** The replacement works piecewise at a non-whitespace boundary. */
  lemma {:induction false} DashWhitespaceConcat(a: string, b: string)
    requires a == [] || !IsWhitespace(a[|a| - 1])
    ensures DashWhitespace(a + b) == DashWhitespace(a) + DashWhitespace(b)
  {
    if a == [] {
      assert a + b == b;
    } else {
      var u := a[1..];
      assert (a + b)[0] == a[0] && (a + b)[1..] == u + b;
      assert u == [] || u[|u| - 1] == a[|a| - 1];
      if |a| > 1 {
        assert (a + b)[1] == a[1];
      }
      DashWhitespaceConcat(u, b);
    }
  }

  /** A whitespace run in front of non-whitespace text becomes one '-'. */
  lemma {:induction false} DashWhitespaceOfRun(run: string, b: string)
    requires run != [] && forall i :: 0 <= i < |run| ==> IsWhitespace(run[i])
    requires b == [] || !IsWhitespace(b[0])
    ensures DashWhitespace(run + b) == "-" + DashWhitespace(b)
  {
    var rb := run + b;
    assert rb[0] == run[0] && rb[1..] == run[1..] + b;
    if |run| > 1 {
      assert rb[1] == run[1];
      DashWhitespaceOfRun(run[1..], b);
    } else {
      assert rb[1..] == b;
    }
  }

  /** Each maximal whitespace run becomes exactly one '-': the text before
      the run and the text after it are replaced on their own. */
  lemma {:induction false} DashWhitespaceRun(a: string, run: string, b: string)
    requires a == [] || !IsWhitespace(a[|a| - 1])
    requires run != [] && forall i :: 0 <= i < |run| ==> IsWhitespace(run[i])
    requires b == [] || !IsWhitespace(b[0])
    ensures DashWhitespace(a + run + b) == DashWhitespace(a) + "-" + DashWhitespace(b)
  {
    assert a + run + b == a + (run + b);
    DashWhitespaceConcat(a, run + b);
    DashWhitespaceOfRun(run, b);
  }
}
