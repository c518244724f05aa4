/** Files on disk over time, and the stamps by which a cache recognises a version of one. */
module FileHistory {
  import opened Wrappers

  type Path = string
  type Content(==, !new)
  type Stamp(==, !new)

  /** One version of an existing file. */
  datatype Version = Version(stamp: Stamp, content: Content)

  /** The existing files at one instant. */
  type Disk = map<Path, Version>

  function StampAt(d: Disk, p: Path): Option<Stamp>
  {
    if p in d then Some(d[p].stamp) else None
  }

  function ContentAt(d: Disk, p: Path): Option<Content>
  {
    if p in d then Some(d[p].content) else None
  }

  /** A stamp once left is never seen again: equal stamps at `i` and `j` mean one version from `i` to `j`. */
  ghost predicate OneVersion(h: seq<Disk>, p: Path, i: nat, k: nat, j: nat)
  {
    i <= k <= j < |h| && p in h[i] && p in h[j] && h[i][p].stamp == h[j][p].stamp
    ==> p in h[k] && h[k][p] == h[i][p]
  }

  /** The history of a disk: every stamp belongs to one uninterrupted version. */
  ghost predicate ValidHistory(h: seq<Disk>)
  {
    && |h| > 0
    && forall p, i, k, j {:trigger OneVersion(h, p, i, k, j)} :: OneVersion(h, p, i, k, j)
  }

  /** The assumption about writers: a write gives the file a stamp it never had before. */
  ghost predicate NewStamp(h: seq<Disk>, p: Path, s: Stamp)
  {
    forall i :: 0 <= i < |h| && p in h[i] ==> h[i][p].stamp != s
  }

  lemma WriteKeepsHistory(h: seq<Disk>, p: Path, v: Version)
    requires ValidHistory(h) && NewStamp(h, p, v.stamp)
    ensures ValidHistory(h + [h[|h| - 1][p := v]])
  {
    var g := h + [h[|h| - 1][p := v]];
    forall q, i: nat, k: nat, j: nat ensures OneVersion(g, q, i, k, j) {
      if i <= k <= j < |g| {
        if j < |h| {
          assert OneVersion(h, q, i, k, j);
        } else if i < |h| && q != p {
          assert OneVersion(h, q, i, if k < |h| then k else |h| - 1, |h| - 1);
        }
      }
    }
  }

  lemma DeleteKeepsHistory(h: seq<Disk>, p: Path)
    requires ValidHistory(h)
    ensures ValidHistory(h + [h[|h| - 1] - {p}])
  {
    var g := h + [h[|h| - 1] - {p}];
    forall q, i: nat, k: nat, j: nat ensures OneVersion(g, q, i, k, j) {
      if i <= k <= j < |g| {
        if j < |h| {
          assert OneVersion(h, q, i, k, j);
        } else if i < |h| && q != p {
          assert OneVersion(h, q, i, if k < |h| then k else |h| - 1, |h| - 1);
        }
      }
    }
  }

  ghost predicate AbsentThroughout(h: seq<Disk>, p: Path, from: nat, to: nat)
  {
    forall k :: from <= k <= to && k < |h| ==> p !in h[k]
  }

  /**
   * The stamp, found at `from` and again at `to`, identifies what it was taken of. All absent files have the same
   * stamp, so there it takes that the file did not exist in between.
   */
  ghost predicate StampTells(h: seq<Disk>, p: Path, stamp: Option<Stamp>, from: nat, to: nat)
  {
    stamp.Some? || AbsentThroughout(h, p, from, to)
  }

  /** A file with the same telling stamp at two instants had the same content all the way between. */
  lemma SameStampSameContent(h: seq<Disk>, p: Path, i: nat, k: nat, j: nat)
    requires ValidHistory(h) && i <= k <= j < |h|
    requires StampTells(h, p, StampAt(h[i], p), i, j) && StampAt(h[i], p) == StampAt(h[j], p)
    ensures StampAt(h[k], p) == StampAt(h[i], p)
    ensures ContentAt(h[k], p) == ContentAt(h[i], p) == ContentAt(h[j], p)
  {
    assert OneVersion(h, p, i, k, j);
    assert OneVersion(h, p, i, j, j);
  }

  // ---------------------------------------------------------------------------
  // Files that exist only for a while
  // ---------------------------------------------------------------------------

  /** `p` was absent, existed, and was absent again. */
  ghost predicate Brief(h: seq<Disk>, p: Path, i: nat, k: nat, j: nat)
  {
    i < k < j < |h| && p !in h[i] && p in h[k] && p !in h[j]
  }

  ghost predicate NeverBrief(h: seq<Disk>, p: Path)
  {
    forall i, k, j :: !Brief(h, p, i, k, j)
  }

  lemma NeverBriefTells(h: seq<Disk>, p: Path, stamp: Option<Stamp>, from: nat, to: nat)
    requires NeverBrief(h, p) && from < |h| && to < |h| && StampAt(h[from], p) == stamp == StampAt(h[to], p)
    ensures StampTells(h, p, stamp, from, to)
  {
    if stamp == None {
      forall k | from <= k <= to && k < |h| ensures p !in h[k] {
        assert !Brief(h, p, from, k, to);
      }
    }
  }

  ghost predicate WrittenAt(h: seq<Disk>, t: nat, p: Path, v: Version)
  {
    0 < t < |h| && NewStamp(h[..t], p, v.stamp) && h[t] == h[t - 1][p := v]
  }

  ghost predicate DeletedAt(h: seq<Disk>, t: nat, p: Path)
  {
    0 < t < |h| && h[t] == h[t - 1] - {p}
  }

  /** The disk at `t` is the one before after writing or deleting one file. */
  ghost predicate EditedAt(h: seq<Disk>, t: nat)
  {
    (exists p, v :: WrittenAt(h, t, p, v)) || (exists p :: DeletedAt(h, t, p))
  }

  /** A history that edits can produce. */
  ghost predicate IsEdited(h: seq<Disk>)
  {
    |h| > 0 && forall t :: 0 < t < |h| ==> EditedAt(h, t)
  }

  lemma EditedStarts(h: seq<Disk>)
    requires IsEdited(h)
    ensures |h| > 0 && h[..1] == [h[0]]
  {
  }
}
