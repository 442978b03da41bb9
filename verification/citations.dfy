/** `re.sub(r'\[.*?\]', '', text)`: deletion of bracketed citation markers.

    The regular expression matches an opening bracket, then as few
    characters other than a line break as possible, then a closing bracket.
    The substitution scans left to right, deletes each match and resumes
    after it, and copies every other character unchanged. */
module Citations {
  import opened Results

  /** Offset of the first ']' in `s` that comes before any line break. */
  function FirstClose(s: seq<char>): (r: Option<nat>)
    ensures r.Some? ==> r.value < |s| && s[r.value] == ']'
    ensures r.Some? ==> forall j :: 0 <= j < r.value ==> s[j] != ']' && s[j] != '\n'
    ensures r.None? ==> forall k :: 0 <= k < |s| && s[k] == ']' ==> '\n' in s[..k]
  {
    if |s| == 0 then None
    else if s[0] == ']' then Some(0)
    else if s[0] == '\n' then None
    else
      match FirstClose(s[1..])
      case None => None
      case Some(k) => Some(k + 1)
  }

  /** The substitution itself. When `s` starts with '[' and a ']' follows
      on the same line, the marker up to the first such ']' is deleted;
      otherwise the first character is kept. */
  function RemoveCitations(s: seq<char>): (r: seq<char>)
    ensures |r| <= |s|
    decreases |s|
  {
    if |s| == 0 then []
    else if s[0] == '[' && FirstClose(s[1..]).Some? then
      RemoveCitations(s[FirstClose(s[1..]).value + 2..])
    else
      [s[0]] + RemoveCitations(s[1..])
  }

  /** A citation marker occupies `s[i..k+1]`: '[' at `i`, ']' at `k` and no
      line break between them. */
  ghost predicate MarkerAt(s: seq<char>, i: int, k: int) {
    && 0 <= i < k < |s|
    && s[i] == '['
    && s[k] == ']'
    && forall m :: i < m < k ==> s[m] != '\n'
  }

  /** `s[i..k+1]` is the match the regular expression finds first: no
      marker starts before `i`, and `k` is the nearest close after `i`. */
  ghost predicate FirstMatch(s: seq<char>, i: int, k: int) {
    && MarkerAt(s, i, k)
    && (forall j, m :: 0 <= j < i ==> !MarkerAt(s, j, m))
    && (forall m :: i < m < k ==> !MarkerAt(s, i, m))
  }

  /** No '[' in `s` is followed by a ']' on the same line. */
  ghost predicate CitationFree(s: seq<char>) {
    forall i, k :: !MarkerAt(s, i, k)
  }

  /** `r` is `s` with some characters deleted: position `j` of `r` is
      position `idx[j]` of `s`, and positions increase. */
  ghost predicate EmbedsVia(r: seq<char>, s: seq<char>, idx: seq<nat>) {
    && |idx| == |r|
    && (forall j :: 0 <= j < |idx| ==> idx[j] < |s| && s[idx[j]] == r[j])
    && (forall j :: 0 < j < |idx| ==> idx[j - 1] < idx[j])
  }

  ghost predicate IsSubsequence(r: seq<char>, s: seq<char>) {
    exists idx :: EmbedsVia(r, s, idx)
  }

  // ---------------------------------------------------------------------
  // Small facts about markers and positions

  /** A marker starts at 0 exactly when the scan deletes at 0, and then it
      ends at the first close. */
  lemma {:induction false} MarkerAtFront(s: seq<char>, k: int)
    requires |s| > 0 && s[0] == '['
    ensures MarkerAt(s, 0, k) ==> FirstClose(s[1..]).Some? && FirstClose(s[1..]).value + 1 <= k
    ensures FirstClose(s[1..]).Some? ==> MarkerAt(s, 0, FirstClose(s[1..]).value + 1)
  {
  }

  /** Markers of `s[d..]` are the markers of `s` that start at or after `d`. */
  lemma {:induction false} MarkerSkip(s: seq<char>, d: nat, i: int, k: int)
    requires d <= |s| && 0 <= i
    ensures MarkerAt(s[d..], i, k) <==> MarkerAt(s, i + d, k + d)
  {
  }

  /** A marker of a slice is a marker of the whole text. */
  lemma {:induction false} MarkerOfSlice(s: seq<char>, a: int, b: int, i: int, k: int)
    requires 0 <= a <= b <= |s|
    ensures MarkerAt(s[a..b], i, k) ==> MarkerAt(s, a + i, a + k)
  {
  }

  lemma {:induction false} CitationFreeSlice(s: seq<char>, a: int, b: int)
    requires CitationFree(s) && 0 <= a <= b <= |s|
    ensures CitationFree(s[a..b])
  {
    forall i, k ensures !MarkerAt(s[a..b], i, k) {
      MarkerOfSlice(s, a, b, i, k);
    }
  }

  // ---------------------------------------------------------------------
  // What the substitution leaves behind

  /** Deleting markers never brings a ']' onto a line that had none: if no
      ']' precedes the first line break of `u`, the same holds afterwards. */
  lemma {:induction false} OpenLineStaysOpen(u: seq<char>)
    requires FirstClose(u).None?
    ensures FirstClose(RemoveCitations(u)).None?
    decreases |u|
  {
    if |u| > 0 && u[0] != '\n' {
      assert FirstClose(u[1..]).None?;
      OpenLineStaysOpen(u[1..]);
      var r := RemoveCitations(u);
      assert r == [u[0]] + RemoveCitations(u[1..]);
      assert r[1..] == RemoveCitations(u[1..]);
    }
  }

  /** No marker survives the substitution. */
  lemma {:induction false} RemoveCitationsFree(s: seq<char>)
    ensures CitationFree(RemoveCitations(s))
    decreases |s|
  {
    if |s| == 0 {
    } else if s[0] == '[' && FirstClose(s[1..]).Some? {
      RemoveCitationsFree(s[FirstClose(s[1..]).value + 2..]);
    } else {
      var t := RemoveCitations(s[1..]);
      var r := RemoveCitations(s);
      RemoveCitationsFree(s[1..]);
      assert r == [s[0]] + t && r[1..] == t;
      forall i, k | MarkerAt(r, i, k)
        ensures false
      {
        if i == 0 {
          assert FirstClose(s[1..]).None?;
          OpenLineStaysOpen(s[1..]);
        } else {
          MarkerSkip(r, 1, i - 1, k - 1);
        }
      }
    }
  }

  /** Text without markers passes through unchanged. */
  lemma {:induction false} RemoveCitationsKeepsFree(s: seq<char>)
    requires CitationFree(s)
    ensures RemoveCitations(s) == s
    decreases |s|
  {
    if |s| > 0 {
      if s[0] == '[' && FirstClose(s[1..]).Some? {
        MarkerAtFront(s, 0);
        assert false;
      }
      forall i, k ensures !MarkerAt(s[1..], i, k) {
        if 0 <= i {
          MarkerSkip(s, 1, i, k);
        }
      }
      RemoveCitationsKeepsFree(s[1..]);
      assert s == [s[0]] + s[1..];
    }
  }

  /** The substitution is the identity exactly on marker-free text. */
  lemma {:induction false} RemoveCitationsFixpoint(s: seq<char>)
    ensures RemoveCitations(s) == s <==> CitationFree(s)
  {
    RemoveCitationsFree(s);
    if CitationFree(s) {
      RemoveCitationsKeepsFree(s);
    }
  }

  /** Text with a marker has a first one for the substitution to delete. */
  lemma {:induction false} FirstMatchExists(s: seq<char>)
    requires !CitationFree(s)
    ensures exists i, k :: FirstMatch(s, i, k)
    decreases |s|
  {
    if s[0] == '[' && FirstClose(s[1..]).Some? {
      var k := FirstClose(s[1..]).value + 1;
      MarkerAtFront(s, k);
      forall m | 0 < m < k ensures !MarkerAt(s, 0, m) {
        MarkerAtFront(s, m);
      }
      assert FirstMatch(s, 0, k);
    } else {
      forall m ensures !MarkerAt(s, 0, m) {
        if |s| > 0 && s[0] == '[' {
          MarkerAtFront(s, m);
        }
      }
      var i, k :| MarkerAt(s, i, k);
      MarkerSkip(s, 1, i - 1, k - 1);
      FirstMatchExists(s[1..]);
      var i', k' :| FirstMatch(s[1..], i', k');
      FirstMatchUnshift(s, i', k');
    }
  }

  /** A first match of `s[1..]` is a first match of `s` when no marker
      starts at 0. */
  lemma {:induction false} FirstMatchUnshift(s: seq<char>, i: int, k: int)
    requires |s| > 0 && FirstMatch(s[1..], i, k)
    requires forall m :: !MarkerAt(s, 0, m)
    ensures FirstMatch(s, i + 1, k + 1)
  {
    var i1 := i + 1;
    MarkerSkip(s, 1, i, k);
    forall j, m | 1 <= j < i1 ensures !MarkerAt(s, j, m) {
      MarkerSkip(s, 1, j - 1, m - 1);
    }
    forall m | i1 < m < k + 1 ensures !MarkerAt(s, i1, m) {
      MarkerSkip(s, 1, i, m - 1);
    }
  }

  /** The substitution deletes the leftmost marker, up to its nearest ']',
      keeps everything before it, and carries on after it. */
  lemma {:induction false} RemoveCitationsLeftmostShortest(s: seq<char>, i: int, k: int)
    requires FirstMatch(s, i, k)
    ensures RemoveCitations(s) == s[..i] + RemoveCitations(s[k + 1..])
    decreases i
  {
    if i == 0 {
      DeletesFirstMatchAtFront(s, k);
    } else {
      var t := s[1..];
      KeepsFirst(s, i, k);
      LeftmostShortestShift(s, i, k);
      RemoveCitationsLeftmostShortest(t, i - 1, k - 1);
      assert t[k..] == s[k + 1..];
      PrependSplit(s, i, RemoveCitations(s[k + 1..]));
    }
  }

  lemma {:induction false} DeletesFirstMatchAtFront(s: seq<char>, k: int)
    requires FirstMatch(s, 0, k)
    ensures RemoveCitations(s) == RemoveCitations(s[k + 1..])
  {
    MarkerAtFront(s, k);
    var c := FirstClose(s[1..]).value;
    assert c + 1 == k;
  }

  lemma PrependSplit(s: seq<char>, i: int, x: seq<char>)
    requires 0 < i <= |s|
    ensures [s[0]] + (s[1..][..i - 1] + x) == s[..i] + x
  {
  }

  /** The leftmost-shortest conditions carry over from `s` to `s[1..]`. */
  lemma {:induction false} LeftmostShortestShift(s: seq<char>, i: int, k: int)
    requires FirstMatch(s, i, k) && 0 < i
    ensures FirstMatch(s[1..], i - 1, k - 1)
  {
    var i', k' := i - 1, k - 1;
    MarkerSkip(s, 1, i', k');
    forall j, m | 0 <= j < i' ensures !MarkerAt(s[1..], j, m) {
      MarkerSkip(s, 1, j, m);
    }
    forall m | i' < m < k' ensures !MarkerAt(s[1..], i', m) {
      MarkerSkip(s, 1, i', m);
    }
  }

  /** When no marker starts at 0, the scan keeps the first character. */
  lemma {:induction false} KeepsFirst(s: seq<char>, i: int, k: int)
    requires FirstMatch(s, i, k) && 0 < i
    ensures RemoveCitations(s) == [s[0]] + RemoveCitations(s[1..])
  {
    if s[0] == '[' && FirstClose(s[1..]).Some? {
      MarkerAtFront(s, 0);
      assert false;
    }
  }

  // ---------------------------------------------------------------------
  // Kept characters

  function Shift(idx: seq<nat>, d: nat): (r: seq<nat>)
    ensures |r| == |idx|
    ensures forall j :: 0 <= j < |idx| ==> r[j] == idx[j] + d
  {
    seq(|idx|, j requires 0 <= j < |idx| => idx[j] + d)
  }

  /** Every character of the output is a character of the input, in the
      input's order. */
  lemma {:induction false} RemoveCitationsSubsequence(s: seq<char>)
    ensures IsSubsequence(RemoveCitations(s), s)
    decreases |s|
  {
    var r := RemoveCitations(s);
    if |s| == 0 {
      assert EmbedsVia(r, s, []);
    } else if s[0] == '[' && FirstClose(s[1..]).Some? {
      var d := FirstClose(s[1..]).value + 2;
      RemoveCitationsSubsequence(s[d..]);
      var idx :| EmbedsVia(r, s[d..], idx);
      assert EmbedsVia(r, s, Shift(idx, d));
    } else {
      var t := RemoveCitations(s[1..]);
      RemoveCitationsSubsequence(s[1..]);
      var idx :| EmbedsVia(t, s[1..], idx);
      var idx' := [0] + Shift(idx, 1);
      assert r == [s[0]] + t;
      assert EmbedsVia(r, s, idx');
    }
  }

  lemma {:induction false} SubsequenceSlice(r: seq<char>, s: seq<char>, a: int, b: int)
    requires IsSubsequence(r, s) && 0 <= a <= b <= |r|
    ensures IsSubsequence(r[a..b], s)
  {
    var idx :| EmbedsVia(r, s, idx);
    assert EmbedsVia(r[a..b], s, idx[a..b]);
  }
}
