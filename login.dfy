/**
 * The login page's redirect target: `location.search.split('next=')[1] || '/'`,
 * and the navigation it triggers once the user is authenticated.
 */
module Login {
  import opened Wrappers

  const Marker: string := "next="

  /** `pat` occurs in `s` starting at position `i`. */
  predicate OccursAt(s: string, pat: string, i: int)
  {
    0 <= i && i + |pat| <= |s| && s[i..i + |pat|] == pat
  }

  predicate Contains(s: string, pat: string)
  {
    exists i :: 0 <= i <= |s| && OccursAt(s, pat, i)
  }

  /** `s.indexOf(pat, from)`: the first position at or after `from` where `pat` occurs. */
  function IndexOf(s: string, pat: string, from: nat): (r: Option<nat>)
    ensures r.Some? ==> from <= r.value && OccursAt(s, pat, r.value)
    ensures r.Some? ==> forall k :: from <= k < r.value ==> !OccursAt(s, pat, k)
    ensures r.None? ==> forall k :: from <= k ==> !OccursAt(s, pat, k)
    decreases |s| - from
  {
    if from + |pat| > |s| then None
    else if s[from..from + |pat|] == pat then Some(from)
    else IndexOf(s, pat, from + 1)
  }

  /**
   * `piece` follows the first occurrence of `sep`, which is at `i`, and runs
   * up to the next occurrence (none starts inside it) or to the end of `s`.
   */
  predicate PieceAfter(s: string, sep: string, i: int, piece: string)
  {
    && OccursAt(s, sep, i) && (forall k :: 0 <= k < i ==> !OccursAt(s, sep, k))
    && i + |sep| + |piece| <= |s| && s[i + |sep|..i + |sep| + |piece|] == piece
    && (forall k :: i + |sep| <= k < i + |sep| + |piece| ==> !OccursAt(s, sep, k))
    && (i + |sep| + |piece| == |s| || OccursAt(s, sep, i + |sep| + |piece|))
  }

  /**
   * `s.split(sep)[1]`: the text between the first occurrence of `sep` and the
   * next one (or the end of `s`); `None` (undefined) when `sep` does not occur.
   */
  function SecondPiece(s: string, sep: string): (r: Option<string>)
    requires sep != ""
    ensures r.None? <==> !Contains(s, sep)
    ensures r.Some? ==> !Contains(r.value, sep)
    ensures r.Some? ==> exists i :: PieceAfter(s, sep, i, r.value)
  {
    match IndexOf(s, sep, 0)
    case None => None
    case Some(i) =>
      var start := i + |sep|;
      var next := IndexOf(s, sep, start);
      var end := if next.Some? then next.value else |s|;
      NoOccurrenceInGap(s, sep, start, end);
      assert PieceAfter(s, sep, i, s[start..end]);
      Some(s[start..end])
  }

  /** With a separator that overlaps itself the piece still stops at the next occurrence. */
  lemma OverlappingSeparatorPiece()
    ensures SecondPiece("aaXaaa", "aa") == Some("X")
  {
    var s := "aaXaaa";
    assert s[0..2] == "aa";
    assert s[2..4][0] == 'X';
    assert s[3..5] == "aa";
    IndexOfFirst(s, "aa", 2, 3);
    assert s[2..3] == "X";
  }

  /** An occurrence inside a slice is an occurrence in the whole string, ending inside the slice. */
  lemma OccursInSlice(s: string, a: nat, b: nat, pat: string, k: int)
    requires a <= b <= |s|
    requires OccursAt(s[a..b], pat, k)
    ensures OccursAt(s, pat, a + k) && a + k + |pat| <= b
  {
    var t := s[a..b];
    var u, v := t[k..k + |pat|], s[a + k..a + k + |pat|];
    forall j | 0 <= j < |pat| ensures u[j] == v[j] {
      assert u[j] == t[k + j] == s[a + k + j];
    }
    assert u == v;
  }

  /** Every occurrence of the marker starts with 'n'. */
  lemma NotAtOtherLetter(s: string, k: int)
    requires 0 <= k < |s| && s[k] != 'n'
    ensures !OccursAt(s, Marker, k)
  {
  }

  /** A slice that starts at `a` and ends before the first occurrence at or after `a` holds no occurrence. */
  lemma NoOccurrenceInGap(s: string, pat: string, a: nat, b: nat)
    requires a <= b <= |s|
    requires forall k :: a <= k && k + |pat| <= b ==> !OccursAt(s, pat, k)
    ensures !Contains(s[a..b], pat)
  {
    if Contains(s[a..b], pat) {
      var k :| OccursAt(s[a..b], pat, k);
      OccursInSlice(s, a, b, pat, k);
    }
  }

  /**
   * The redirect target: the second piece of the split, or "/" when it is
   * undefined or empty. Never empty, and never itself holding "next=".
   */
  function NextTarget(search: string): (r: string)
    ensures r != ""
    ensures !Contains(r, Marker)
    ensures !Contains(search, Marker) ==> r == "/"
  {
    match SecondPiece(search, Marker)
    case None => "/"
    case Some(piece) => if piece != "" then piece else assert !Contains("/", Marker); "/"
  }

  /**
   * The characterisation of `NextTarget`: whenever `search` is some prefix in
   * which no "next=" starts, then "next=", then a piece in which none starts,
   * then either nothing or another "next=...", the target is that piece
   * (or "/" if it is empty). Together with `NextTarget`'s own contract this
   * fixes the result on every input.
   */
  lemma {:induction false} NextTargetOfDecomposition(pre: string, piece: string, post: string)
    requires var s := pre + Marker + piece + post;
      (forall k :: 0 <= k < |pre| ==> !OccursAt(s, Marker, k)) &&
      (forall k :: |pre| + |Marker| <= k < |pre| + |Marker| + |piece| ==> !OccursAt(s, Marker, k))
    requires post == "" || OccursAt(post, Marker, 0)
    ensures NextTarget(pre + Marker + piece + post) == if piece == "" then "/" else piece
  {
    var s := pre + Marker + piece + post;
    var start := |pre| + |Marker|;
    var end := start + |piece|;
    assert OccursAt(s, Marker, |pre|) by {
      assert s[|pre|..start] == Marker;
    }
    IndexOfFirst(s, Marker, 0, |pre|);
    assert s[start..end] == piece;
    if post != "" {
      assert OccursAt(s, Marker, end) by {
        assert s[end..end + |Marker|] == post[..|Marker|];
      }
      IndexOfFirst(s, Marker, start, end);
    }
    assert SecondPiece(s, Marker) == Some(piece);
  }

  /** An occurrence with none before it, from `from` on, is what `IndexOf` finds. */
  lemma IndexOfFirst(s: string, pat: string, from: nat, i: nat)
    requires from <= i && OccursAt(s, pat, i)
    requires forall k :: from <= k < i ==> !OccursAt(s, pat, k)
    ensures IndexOf(s, pat, from) == Some(i)
  {
  }

  /** A search string "?next=" + path with a non-empty, "next="-free path gives back exactly that path. */
  lemma MarkedPathRoundTrip(path: string)
    requires path != "" && !Contains(path, Marker)
    ensures NextTarget("?next=" + path) == path
  {
    var s := "?next=" + path;
    assert s == "?" + Marker + path + "";
    forall k | 0 <= k < 1 ensures !OccursAt(s, Marker, k) {
      NotAtOtherLetter(s, k);
    }
    forall k | 6 <= k < 6 + |path| ensures !OccursAt(s, Marker, k) {
      if OccursAt(s, Marker, k) {
        assert s[6..] == path;
        assert s[k..k + 5] == path[k - 6..k - 1];
        assert OccursAt(path, Marker, k - 6);
      }
    }
    NextTargetOfDecomposition("?", path, "");
  }

  /** Later `&` parameters are kept: "?next=/a&b=1" redirects to "/a&b=1". */
  lemma AmpersandIsKept()
    ensures NextTarget("?next=/a&b=1") == "/a&b=1"
  {
    var path := "/a&b=1";
    forall k | 0 <= k <= |path| ensures !OccursAt(path, Marker, k) {
      if k < 2 {
        NotAtOtherLetter(path, k);
      }
    }
    assert !Contains(path, Marker);
    MarkedPathRoundTrip(path);
    assert "?next=" + path == "?next=/a&b=1";
  }

  /** "?next=" at the end of the search string leaves an empty piece, and the target falls back to "/". */
  lemma EmptyPieceFallsBack()
    ensures NextTarget("?next=") == "/"
  {
    NotAtOtherLetter("?next=", 0);
    assert "?next=" == "?" + Marker + "" + "";
    NextTargetOfDecomposition("?", "", "");
  }

  /** The login page navigates to the target only when the user is authenticated. */
  function LoginRedirect(isAuthenticated: bool, search: string): (r: Option<string>)
    ensures r.Some? <==> isAuthenticated
    ensures r.Some? ==> r.value != "" && r.value == NextTarget(search)
  {
    if isAuthenticated then Some(NextTarget(search)) else None
  }
}
