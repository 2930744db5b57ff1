/**
 * The `_arrow` marker the mobile client appends to arrow-key names, and its
 * removal, which behaves like Python's `str.replace`.
 */
module ArrowMarkers {

  /** The marker the mobile client appends to arrow-key names. */
  const ArrowMarker: string := "_arrow"

  /** The marker occurs in `s` starting at index `i`. */
  predicate MarkerAt(s: string, i: int) {
    0 <= i && i + |ArrowMarker| <= |s| && s[i..i + |ArrowMarker|] == ArrowMarker
  }

  /** `s` holds no occurrence of the marker. */
  ghost predicate NoMarker(s: string) {
    forall i :: !MarkerAt(s, i)
  }

  /** Python's `s.endswith("_arrow")`. */
  predicate EndsWithArrow(s: string) {
    |s| >= |ArrowMarker| && s[|s| - |ArrowMarker|..] == ArrowMarker
  }

  /** `s` starts with the marker. */
  predicate StartsWithMarker(s: string) {
    |s| >= |ArrowMarker| && s[..|ArrowMarker|] == ArrowMarker
  }

  /**
   * Python's `s.replace("_arrow", "")`: every non-overlapping occurrence of
   * the marker, scanning left to right, is removed, not only a trailing one.
   */
  function RemoveArrowMarkers(s: string): (r: string)
    ensures |r| <= |s|
    ensures |r| == |s| ==> r == s
    decreases |s|
  {
    if |s| < |ArrowMarker| then s
    else if StartsWithMarker(s) then RemoveArrowMarkers(s[|ArrowMarker|..])
    else [s[0]] + RemoveArrowMarkers(s[1..])
  }

  /** An identifier holding no arrow marker is left as it is by the marker removal. */
  lemma {:induction false} RemoveArrowMarkersNoMarker(s: string)
    requires NoMarker(s)
    ensures RemoveArrowMarkers(s) == s
    decreases |s|
  {
    if |s| >= |ArrowMarker| {
      assert !MarkerAt(s, 0);
      assert s[..|ArrowMarker|] == s[0..|ArrowMarker|];
      assert !StartsWithMarker(s);
      var t := s[1..];
      forall i ensures !MarkerAt(t, i) {
        if MarkerAt(t, i) {
          assert t[i..i + |ArrowMarker|] == s[i + 1..i + 1 + |ArrowMarker|];
          assert MarkerAt(s, i + 1);
        }
      }
      RemoveArrowMarkersNoMarker(t);
    }
  }

  // The lemmas below keep the shape of `a + ArrowMarker + b` apart from the
  // unfolding of `RemoveArrowMarkers`, so that each proof stays small.

  /** Where `a` starts with the marker, so does `a + ArrowMarker + b`, followed by the rest of `a`. */
  lemma SplitAfterLeadingMarker(a: string, b: string)
    requires StartsWithMarker(a)
    ensures StartsWithMarker(a + ArrowMarker + b)
    ensures (a + ArrowMarker + b)[|ArrowMarker|..] == a[|ArrowMarker|..] + ArrowMarker + b
  {
    assert (a + ArrowMarker + b)[..|ArrowMarker|] == a[..|ArrowMarker|];
  }

  /** Where `a` does not start with the marker, neither does `a + ArrowMarker + b`: no marker straddles the boundary. */
  lemma NoMarkerAcrossBoundary(a: string, b: string)
    requires a != [] && !StartsWithMarker(a)
    ensures !StartsWithMarker(a + ArrowMarker + b)
  {
    var s := a + ArrowMarker + b;
    if |a| < |ArrowMarker| {
      assert s[|a|] == '_' && ArrowMarker[|a|] != '_';
      assert s[..|ArrowMarker|][|a|] != ArrowMarker[|a|];
    } else {
      assert s[..|ArrowMarker|] == a[..|ArrowMarker|];
    }
  }

  /** The head and tail of `a + ArrowMarker + b` for a non-empty `a`. */
  lemma SplitAfterHead(a: string, b: string)
    requires a != []
    ensures (a + ArrowMarker + b)[0] == a[0]
    ensures (a + ArrowMarker + b)[1..] == a[1..] + ArrowMarker + b
  {
  }

  lemma ConsAssoc(c: char, x: string, y: string)
    ensures [c] + (x + y) == ([c] + x) + y
  {
  }

  /** A first character that does not start a marker is kept. */
  lemma KeepHead(s: string)
    requires s != [] && !StartsWithMarker(s)
    ensures RemoveArrowMarkers(s) == [s[0]] + RemoveArrowMarkers(s[1..])
  {
  }

  /** The inductive step of `MarkerSplits` for an `a` that starts with the marker. */
  lemma SplitsAfterLeadingMarker(a: string, b: string)
    requires StartsWithMarker(a)
    requires RemoveArrowMarkers(a[|ArrowMarker|..] + ArrowMarker + b)
             == RemoveArrowMarkers(a[|ArrowMarker|..]) + RemoveArrowMarkers(b)
    ensures RemoveArrowMarkers(a + ArrowMarker + b) == RemoveArrowMarkers(a) + RemoveArrowMarkers(b)
  {
    SplitAfterLeadingMarker(a, b);
  }

  /** The inductive step of `MarkerSplits` for an `a` whose first character is kept. */
  lemma SplitsAfterFirstChar(a: string, b: string)
    requires a != [] && !StartsWithMarker(a)
    requires RemoveArrowMarkers(a[1..] + ArrowMarker + b) == RemoveArrowMarkers(a[1..]) + RemoveArrowMarkers(b)
    ensures RemoveArrowMarkers(a + ArrowMarker + b) == RemoveArrowMarkers(a) + RemoveArrowMarkers(b)
  {
    NoMarkerAcrossBoundary(a, b);
    KeepHead(a + ArrowMarker + b);
    KeepHead(a);
    SplitAfterHead(a, b);
    ConsAssoc(a[0], RemoveArrowMarkers(a[1..]), RemoveArrowMarkers(b));
  }

  /**
   * Removal strips every marker, wherever it stands, and never lets text on
   * either side of one merge into another: the marker has no proper prefix
   * that is also a suffix, so no occurrence can straddle its boundaries.
   */
  lemma {:induction false} MarkerSplits(a: string, b: string)
    ensures RemoveArrowMarkers(a + ArrowMarker + b) == RemoveArrowMarkers(a) + RemoveArrowMarkers(b)
    decreases |a|
  {
    if a == [] {
      assert (a + ArrowMarker + b)[|ArrowMarker|..] == b;
    } else if StartsWithMarker(a) {
      MarkerSplits(a[|ArrowMarker|..], b);
      SplitsAfterLeadingMarker(a, b);
    } else {
      MarkerSplits(a[1..], b);
      SplitsAfterFirstChar(a, b);
    }
  }

  /** A trailing marker is removed: the case of `MarkerSplits` with nothing after it. */
  lemma RemoveTrailingArrowMarker(a: string)
    ensures RemoveArrowMarkers(a + ArrowMarker) == RemoveArrowMarkers(a)
  {
    MarkerSplits(a, []);
    assert a + ArrowMarker + [] == a + ArrowMarker;
  }
}
