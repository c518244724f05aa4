/** Translating line ranges of the current file to the HEAD file through the hunks of a `-U0` diff. */
module HunkMap {
  import opened Wrappers

  datatype DiffHunk = DiffHunk(oldStart: nat, oldCount: nat, newStart: nat, newCount: nat)

  /** An inclusive range of lines, counted from 1. */
  type Range = (nat, nat)

  // ---------------------------------------------------------------------------
  // The program
  // ---------------------------------------------------------------------------

  function NewEnd(h: DiffHunk): int
  {
    if h.newCount == 0 then h.newStart else h.newStart + h.newCount - 1
  }

  predicate Overlaps(h: DiffHunk, range: Range)
  {
    h.newCount > 0 && range.1 >= h.newStart && range.0 <= NewEnd(h)
  }

  /** How many leading hunks end before the range starts. */
  function Passed(hunks: seq<DiffHunk>, range: Range): (k: nat)
    ensures k <= |hunks|
    ensures forall i :: 0 <= i < k ==> range.0 > NewEnd(hunks[i]) && !Overlaps(hunks[i], range)
    ensures k < |hunks| ==> Overlaps(hunks[k], range) || range.0 <= NewEnd(hunks[k])
  {
    if hunks == [] || Overlaps(hunks[0], range) || range.0 <= NewEnd(hunks[0]) then 0
    else
      var rest := Passed(hunks[1..], range);
      assert forall i :: 0 < i < |hunks| ==> hunks[i] == hunks[1..][i - 1];
      1 + rest
  }

  /** Lines gained by these hunks. */
  function Offset(hunks: seq<DiffHunk>): int
  {
    if hunks == [] then 0
    else Offset(hunks[..|hunks| - 1]) + hunks[|hunks| - 1].newCount - hunks[|hunks| - 1].oldCount
  }

  function AtLeastOne(x: int): (r: nat)
    ensures r >= 1 && (x >= 1 ==> r == x)
  {
    if x < 1 then 1 else x
  }

  /** Where one range goes: nothing for a pure insertion, the replaced lines of a changed hunk, or a shifted range. */
  function MapRange(range: Range, hunks: seq<DiffHunk>): seq<Range>
  {
    var k := Passed(hunks, range);
    if k < |hunks| && Overlaps(hunks[k], range) then
      var h := hunks[k];
      if h.oldCount == 0 then [] else [(h.oldStart, h.oldStart + h.oldCount - 1)]
    else
      var offset := Offset(hunks[..k]);
      [(AtLeastOne(range.0 - offset), AtLeastOne(range.1 - offset))]
  }

  function MapRanges(ranges: seq<Range>, hunks: seq<DiffHunk>): seq<Range>
  {
    if ranges == [] then [] else MapRanges(ranges[..|ranges| - 1], hunks) + MapRange(ranges[|ranges| - 1], hunks)
  }

  /** The scan over the hunks for one range: what it overlaps, and the offset so far. */
  method Scan(range: Range, hunks: seq<DiffHunk>) returns (overlap: Option<Option<Range>>, offset: int)
    ensures var k := Passed(hunks, range);
            && offset == Offset(hunks[..k])
            && (overlap.Some? <==> k < |hunks| && Overlaps(hunks[k], range))
            && (overlap.Some? ==> var h := hunks[k];
                  overlap.value == if h.oldCount == 0 then None else Some((h.oldStart, h.oldStart + h.oldCount - 1)))
  {
    var (start, end) := range;
    offset, overlap := 0, None;
    var i := 0;
    while i < |hunks|
      invariant 0 <= i <= Passed(hunks, range)
      invariant offset == Offset(hunks[..i])
    {
      var h := hunks[i];
      PassedAt(hunks, range, i);
      var hunkNewEnd := if h.newCount == 0 then h.newStart else h.newStart + h.newCount - 1;
      if h.newCount > 0 && end >= h.newStart && start <= hunkNewEnd {
        overlap := Some(if h.oldCount == 0 then None else Some((h.oldStart, h.oldStart + h.oldCount - 1)));
        return;
      }
      if start > hunkNewEnd {
        assert hunks[..i + 1][..i] == hunks[..i];
        offset := offset + h.newCount - h.oldCount;
        i := i + 1;
        continue;
      }
      return;
    }
  }

  lemma NoRanges(hunks: seq<DiffHunk>)
    ensures MapRanges([], hunks) == []
  {
  }

  lemma OneMoreRange(ranges: seq<Range>, r: nat, hunks: seq<DiffHunk>)
    requires r < |ranges|
    ensures MapRanges(ranges[..r + 1], hunks) == MapRanges(ranges[..r], hunks) + MapRange(ranges[r], hunks)
  {
    assert ranges[..r + 1][..r] == ranges[..r];
  }

  method MapRangesThroughHunks(ranges: seq<Range>, hunks: seq<DiffHunk>) returns (mapped: seq<Range>)
    ensures mapped == MapRanges(ranges, hunks)
  {
    hide Passed, Offset, Overlaps, MapRanges;
    mapped := [];
    NoRanges(hunks);
    for r := 0 to |ranges|
      invariant mapped == MapRanges(ranges[..r], hunks)
    {
      OneMoreRange(ranges, r, hunks);
      var (start, end) := ranges[r];
      var overlap, offset := Scan(ranges[r], hunks);
      match overlap {
        case Some(Some(oldRange)) => mapped := mapped + [oldRange];
        case Some(None) =>
        case None =>
          var s, e := AtLeastOne(start - offset), AtLeastOne(end - offset);
          mapped := mapped + [(s, e)];
      }
    }
    assert ranges[..|ranges|] == ranges;
  }

  /** Each range goes where it would go alone, in turn. */
  lemma {:induction false} RangesMapInTurn(a: seq<Range>, b: seq<Range>, hunks: seq<DiffHunk>)
    ensures MapRanges(a + b, hunks) == MapRanges(a, hunks) + MapRanges(b, hunks)
    ensures forall range :: MapRanges([range], hunks) == MapRange(range, hunks)
    decreases |b|
  {
    hide MapRange;
    forall range: Range ensures MapRanges([range], hunks) == MapRange(range, hunks) {
      assert [range][..0] == [];
    }
    if b == [] {
      assert a + b == a;
    } else {
      RangesMapInTurn(a, b[..|b| - 1], hunks);
      assert (a + b)[..|a + b| - 1] == a + b[..|b| - 1];
    }
  }

  lemma PassedAt(hunks: seq<DiffHunk>, range: Range, i: nat)
    requires i <= Passed(hunks, range) && i < |hunks|
    ensures i < Passed(hunks, range) <==> !Overlaps(hunks[i], range) && range.0 > NewEnd(hunks[i])
  {
  }

  // ---------------------------------------------------------------------------
  // Diffs
  // ---------------------------------------------------------------------------

  // An empty range names the line just before it, so its first line would be the next one.
  function NewFrom(h: DiffHunk): nat { if h.newCount == 0 then h.newStart + 1 else h.newStart }
  function OldFrom(h: DiffHunk): nat { if h.oldCount == 0 then h.oldStart + 1 else h.oldStart }
  function NewTo(h: DiffHunk): nat { NewFrom(h) + h.newCount }
  function OldTo(h: DiffHunk): nat { OldFrom(h) + h.oldCount }

  /** First line after the `k`-th unchanged stretch begins, on each side; stretch `k` lies before hunk `k`. */
  function StretchNew(hunks: seq<DiffHunk>, k: nat): nat
    requires k <= |hunks|
  {
    if k == 0 then 1 else NewTo(hunks[k - 1])
  }

  function StretchOld(hunks: seq<DiffHunk>, k: nat): nat
    requires k <= |hunks|
  {
    if k == 0 then 1 else OldTo(hunks[k - 1])
  }

  /** Before hunk `k` lies an unchanged stretch that is equally long on both sides. */
  ghost predicate InPlace(hunks: seq<DiffHunk>, k: nat)
    requires k < |hunks|
  {
    && hunks[k].oldCount + hunks[k].newCount > 0
    && StretchNew(hunks, k) <= NewFrom(hunks[k])
    && NewFrom(hunks[k]) - StretchNew(hunks, k) == OldFrom(hunks[k]) - StretchOld(hunks, k)
  }

  ghost predicate WellFormed(hunks: seq<DiffHunk>)
  {
    forall k {:trigger InPlace(hunks, k)} :: 0 <= k < |hunks| ==> InPlace(hunks, k)
  }

  /** New line `l` and old line `o` are the same line of the `k`-th unchanged stretch. */
  ghost predicate AlignedIn(hunks: seq<DiffHunk>, k: nat, l: int, o: int)
  {
    && k <= |hunks|
    && StretchNew(hunks, k) <= l
    && (k < |hunks| ==> l < NewFrom(hunks[k]))
    && o - StretchOld(hunks, k) == l - StretchNew(hunks, k)
  }

  ghost predicate Aligned(hunks: seq<DiffHunk>, l: int, o: int)
  {
    exists k: nat :: AlignedIn(hunks, k, l, o)
  }

  /** `hunks` is a diff from `old_` to `new_`: the unchanged stretches, and the tail, have the same text. */
  ghost predicate IsDiff(hunks: seq<DiffHunk>, old_: seq<string>, new_: seq<string>)
  {
    && WellFormed(hunks)
    && StretchNew(hunks, |hunks|) <= |new_| + 1
    && |new_| + 1 - StretchNew(hunks, |hunks|) == |old_| + 1 - StretchOld(hunks, |hunks|)
    && forall k: nat, l, o :: 1 <= l <= |new_| && AlignedIn(hunks, k, l, o)
         ==> 1 <= o <= |old_| && old_[o - 1] == new_[l - 1]
  }

  // ---------------------------------------------------------------------------
  // Clean ranges
  // ---------------------------------------------------------------------------

  /** No line of the range was inserted or changed. */
  ghost predicate MeetsNoHunk(hunks: seq<DiffHunk>, range: Range)
  {
    forall k :: 0 <= k < |hunks| ==> !Overlaps(hunks[k], range)
  }

  /** Lines were deleted between two lines of the range. */
  ghost predicate Straddles(range: Range, h: DiffHunk)
  {
    h.newCount == 0 && range.0 <= h.newStart < range.1
  }

  ghost predicate StraddlesNone(hunks: seq<DiffHunk>, range: Range)
  {
    forall k :: 0 <= k < |hunks| ==> !Straddles(range, hunks[k])
  }

  lemma NewEndIsLast(h: DiffHunk)
    ensures NewEnd(h) == NewTo(h) - 1
  {
  }

  /** Later hunks lie further down, on both sides. */
  lemma {:induction false} HunksAscend(hunks: seq<DiffHunk>, i: nat, k: nat)
    requires WellFormed(hunks) && i < k <= |hunks|
    ensures NewTo(hunks[i]) <= StretchNew(hunks, k) && OldTo(hunks[i]) <= StretchOld(hunks, k)
    decreases k
  {
    if i < k - 1 {
      HunksAscend(hunks, i, k - 1);
      assert InPlace(hunks, k - 1);
    }
  }

  /** A stretch ends, on both sides, before any later stretch begins. */
  lemma StretchesAscend(hunks: seq<DiffHunk>, i: nat, k: nat)
    requires WellFormed(hunks) && i < k <= |hunks|
    ensures NewFrom(hunks[i]) <= StretchNew(hunks, k) && OldFrom(hunks[i]) <= StretchOld(hunks, k)
    ensures NewFrom(hunks[i]) - StretchNew(hunks, i) == OldFrom(hunks[i]) - StretchOld(hunks, i)
  {
    HunksAscend(hunks, i, k);
    assert InPlace(hunks, i);
  }

  /** The accumulated offset is the shift of the unchanged stretch. */
  lemma {:induction false} OffsetIsShift(hunks: seq<DiffHunk>, k: nat)
    requires WellFormed(hunks) && k <= |hunks|
    ensures Offset(hunks[..k]) == StretchNew(hunks, k) - StretchOld(hunks, k)
  {
    if k > 0 {
      OffsetIsShift(hunks, k - 1);
      assert hunks[..k][..k - 1] == hunks[..k - 1];
      assert InPlace(hunks, k - 1);
    }
  }

  /** Each new line lies in one stretch only. */
  lemma StretchIsUnique(hunks: seq<DiffHunk>, i: nat, k: nat, l: int, o: int, p: int)
    requires WellFormed(hunks) && AlignedIn(hunks, i, l, o) && AlignedIn(hunks, k, l, p)
    ensures i == k && o == p
  {
    if i < k {
      StretchesAscend(hunks, i, k);
    } else if k < i {
      StretchesAscend(hunks, k, i);
    }
  }

  /** Alignment keeps the order of lines. */
  lemma AlignmentAscends(hunks: seq<DiffHunk>, l: int, o: int, m: int, p: int)
    requires WellFormed(hunks) && Aligned(hunks, l, o) && Aligned(hunks, m, p) && l < m
    ensures o < p
  {
    var i: nat :| AlignedIn(hunks, i, l, o);
    var k: nat :| AlignedIn(hunks, k, m, p);
    if i < k {
      StretchesAscend(hunks, i, k);
    } else if k < i {
      StretchesAscend(hunks, k, i);
    }
  }

  /** Each new line has one old line at most, and the other way round. */
  lemma AlignmentIsOneToOne(hunks: seq<DiffHunk>, l: int, o: int, m: int, p: int)
    requires WellFormed(hunks) && Aligned(hunks, l, o) && Aligned(hunks, m, p)
    ensures l == m <==> o == p
  {
    if l < m {
      AlignmentAscends(hunks, l, o, m, p);
    } else if m < l {
      AlignmentAscends(hunks, m, p, l, o);
    } else {
      var i: nat :| AlignedIn(hunks, i, l, o);
      var k: nat :| AlignedIn(hunks, k, m, p);
      StretchIsUnique(hunks, i, k, l, o, p);
    }
  }

  lemma StretchBegins(hunks: seq<DiffHunk>, k: nat)
    requires WellFormed(hunks) && k <= |hunks|
    ensures StretchOld(hunks, k) >= 1 && StretchNew(hunks, k) >= 1
  {
    if k > 0 {
      HunksAscend(hunks, 0, k);
      assert InPlace(hunks, 0);
    }
  }

  /**
   * A range that meets no hunk starts in the stretch before the first hunk that is not passed, and is shifted
   * as a whole by the offset of that stretch; the clamp to line 1 is never needed.
   */
  lemma CleanRange(hunks: seq<DiffHunk>, range: Range) returns (k: nat, s: int)
    requires WellFormed(hunks) && 1 <= range.0 <= range.1 && MeetsNoHunk(hunks, range)
    ensures k == Passed(hunks, range) && AlignedIn(hunks, k, range.0, s) && s >= 1
    ensures MapRange(range, hunks) == [(s, s + (range.1 - range.0))]
    ensures k < |hunks| && range.1 >= NewFrom(hunks[k]) ==> Straddles(range, hunks[k])
  {
    k := Passed(hunks, range);
    OffsetIsShift(hunks, k);
    StretchBegins(hunks, k);
    s := range.0 - Offset(hunks[..k]);
    if k > 0 {
      NewEndIsLast(hunks[k - 1]);
    }
    if k < |hunks| {
      NewEndIsLast(hunks[k]);
      assert !Overlaps(hunks[k], range);
    }
  }

  /** Line `l` of the range is aligned with the line as far below `s` as `l` is below the start of the range. */
  ghost predicate LineMapped(hunks: seq<DiffHunk>, range: Range, s: int, l: int)
  {
    Aligned(hunks, l, s + (l - range.0))
  }

  ghost predicate MapsLineByLine(hunks: seq<DiffHunk>, range: Range, s: int)
  {
    forall l :: range.0 <= l <= range.1 ==> LineMapped(hunks, range, s, l)
  }

  /** A range that meets no hunk is mapped line by line exactly when it straddles no deletion. */
  lemma MappedIffNothingDeletedInside(hunks: seq<DiffHunk>, range: Range) returns (s: int)
    requires WellFormed(hunks) && 1 <= range.0 <= range.1 && MeetsNoHunk(hunks, range)
    ensures s >= 1 && MapRange(range, hunks) == [(s, s + (range.1 - range.0))]
    ensures MapsLineByLine(hunks, range, s) <==> StraddlesNone(hunks, range)
  {
    var k: nat;
    k, s := CleanRange(hunks, range);
    if StraddlesNone(hunks, range) {
      forall l | range.0 <= l <= range.1 ensures LineMapped(hunks, range, s, l) {
        assert AlignedIn(hunks, k, l, s + (l - range.0));
      }
    }
    if MapsLineByLine(hunks, range, s) {
      forall i | 0 <= i < |hunks| ensures !Straddles(range, hunks[i]) {
        StraddledIsMisaligned(hunks, range, s, i);
      }
    }
  }

  /** Across a deletion the two sides drift apart. */
  lemma StraddledIsMisaligned(hunks: seq<DiffHunk>, range: Range, s: int, i: nat)
    requires WellFormed(hunks) && i < |hunks| && 1 <= range.0 <= range.1
    requires Aligned(hunks, range.0, s) && MapsLineByLine(hunks, range, s)
    ensures !Straddles(range, hunks[i])
  {
    if Straddles(range, hunks[i]) {
      var l := hunks[i].newStart;
      assert LineMapped(hunks, range, s, l) && LineMapped(hunks, range, s, l + 1);
      DeletionIsBetween(hunks, i, s + (l - range.0), s + (l + 1 - range.0));
      assert false;
    }
  }

  lemma DeletionIsBetween(hunks: seq<DiffHunk>, i: nat, o: int, p: int)
    requires WellFormed(hunks) && i < |hunks| && hunks[i].newCount == 0
    requires Aligned(hunks, hunks[i].newStart, o) && Aligned(hunks, hunks[i].newStart + 1, p)
    ensures p > o + 1
  {
    var l := hunks[i].newStart;
    assert InPlace(hunks, i);
    var a: nat :| AlignedIn(hunks, a, l, o);
    var b: nat :| AlignedIn(hunks, b, l + 1, p);
    if a > i {
      HunksAscend(hunks, i, a);
    }
    if b <= i {
      if b < i {
        StretchesAscend(hunks, b, i);
      }
    } else {
      StretchesAscend(hunks, a, b);
      HunksAscend(hunks, i, b);
      if a < i {
        StretchesAscend(hunks, a, i);
      }
    }
  }

  /** So such a range is mapped to HEAD lines with the same text. */
  lemma SameText(hunks: seq<DiffHunk>, old_: seq<string>, new_: seq<string>, range: Range) returns (s: int)
    requires IsDiff(hunks, old_, new_) && 1 <= range.0 <= range.1 <= |new_|
    requires MeetsNoHunk(hunks, range) && StraddlesNone(hunks, range)
    ensures 1 <= s && s + (range.1 - range.0) <= |old_|
    ensures MapRange(range, hunks) == [(s, s + (range.1 - range.0))]
    ensures old_[s - 1..s + (range.1 - range.0)] == new_[range.0 - 1..range.1]
  {
    s := MappedIffNothingDeletedInside(hunks, range);
    var n := range.1 - range.0;
    hide MapRange, MeetsNoHunk, StraddlesNone, WellFormed, AlignedIn;
    LineHasSameText(hunks, old_, new_, range, s, range.0);
    LineHasSameText(hunks, old_, new_, range, s, range.1);
    var a, b := old_[s - 1..s + n], new_[range.0 - 1..range.1];
    forall i | 0 <= i < |a| ensures a[i] == b[i] {
      LineHasSameText(hunks, old_, new_, range, s, range.0 + i);
    }
  }

  lemma LineHasSameText(hunks: seq<DiffHunk>, old_: seq<string>, new_: seq<string>, range: Range, s: int, l: int)
    requires IsDiff(hunks, old_, new_) && 1 <= range.0 <= l <= range.1 <= |new_| && MapsLineByLine(hunks, range, s)
    ensures var o := s + (l - range.0); 1 <= o <= |old_| && old_[o - 1] == new_[l - 1]
  {
    hide WellFormed;
    assert LineMapped(hunks, range, s, l);
    var k: nat :| AlignedIn(hunks, k, l, s + (l - range.0));
  }

  /** Two such ranges keep their order. */
  lemma OrderIsKept(hunks: seq<DiffHunk>, a: Range, b: Range)
    requires WellFormed(hunks) && 1 <= a.0 <= a.1 < b.0 <= b.1
    requires MeetsNoHunk(hunks, a) && StraddlesNone(hunks, a) && MeetsNoHunk(hunks, b) && StraddlesNone(hunks, b)
    ensures |MapRange(a, hunks)| == |MapRange(b, hunks)| == 1 && MapRange(a, hunks)[0].1 < MapRange(b, hunks)[0].0
  {
    var s := MappedIffNothingDeletedInside(hunks, a);
    var t := MappedIffNothingDeletedInside(hunks, b);
    hide MeetsNoHunk, StraddlesNone, WellFormed, Aligned, MapRange;
    assert LineMapped(hunks, a, s, a.1) && LineMapped(hunks, b, t, b.0);
    AlignmentAscends(hunks, a.1, s + (a.1 - a.0), b.0, t);
  }

  // ---------------------------------------------------------------------------
  // Ranges that meet a hunk
  // ---------------------------------------------------------------------------

  /** The first hunk that ends at or after the start of the range, if any. */
  ghost predicate FirstNotBefore(hunks: seq<DiffHunk>, range: Range, k: nat)
  {
    k < |hunks| && range.0 < NewTo(hunks[k]) && forall i :: 0 <= i < k ==> NewTo(hunks[i]) <= range.0
  }

  /** If that hunk overlaps the range, the range becomes the lines it replaced, or nothing if it replaced none. */
  lemma OverlappedRange(hunks: seq<DiffHunk>, range: Range, k: nat)
    requires WellFormed(hunks) && FirstNotBefore(hunks, range, k)
    requires hunks[k].newCount > 0 && NewFrom(hunks[k]) <= range.1
    ensures MapRange(range, hunks) == if hunks[k].oldCount == 0 then [] else [(OldFrom(hunks[k]), OldTo(hunks[k]) - 1)]
  {
    var p := Passed(hunks, range);
    if p < k {
      NewEndIsLast(hunks[p]);
    } else if k < p {
      NewEndIsLast(hunks[k]);
    }
  }

  /** A deletion straddled by the range hides every hunk after it: the range is shifted as if it met none. */
  lemma StraddledHidesLater(hunks: seq<DiffHunk>, range: Range, k: nat)
    requires WellFormed(hunks) && 1 <= range.0 <= range.1
    requires FirstNotBefore(hunks, range, k) && hunks[k].newCount == 0
    ensures var offset := StretchNew(hunks, k) - StretchOld(hunks, k);
            range.0 - offset >= 1 && MapRange(range, hunks) == [(range.0 - offset, range.1 - offset)]
  {
    var p := Passed(hunks, range);
    if p < k {
      NewEndIsLast(hunks[p]);
    } else if k < p {
      NewEndIsLast(hunks[k]);
    }
    OffsetIsShift(hunks, k);
    StretchBegins(hunks, k);
    if k > 0 {
      assert NewTo(hunks[k - 1]) <= range.0;
    }
  }
}
