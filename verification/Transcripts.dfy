/** Replay of a transcript's file edits: what each mutation changed, reconstructed without touching the disk. */
module Transcripts {
  import opened Wrappers

  type Path = string

  datatype Replacement = Replacement(oldText: string, newText: string)

  /** A tool use. A part that is missing or has the wrong type is None; `text` is the listing a Read returned. */
  datatype Event =
    | Read(path: Path, windowed: bool, text: Option<string>)
    | Write(path: Path, content: Option<string>)
    | Edit(path: Path, replacement: Option<Replacement>)
    | MultiEdit(path: Path, edits: Option<seq<Option<Replacement>>>)
    | Other(path: Path)

  datatype Snapshot = Snapshot(path: Path, before: Option<string>, after: string, number: nat)

  // ---------------------------------------------------------------------------
  // One replacement
  // ---------------------------------------------------------------------------

  predicate OccursAt(text: string, pattern: string, i: nat)
  {
    i + |pattern| <= |text| && text[i..i + |pattern|] == pattern
  }

  lemma OccursInTail(text: string, pattern: string, i: nat)
    requires text != "" && i > 0
    ensures OccursAt(text, pattern, i) <==> OccursAt(text[1..], pattern, i - 1)
  {
    if i + |pattern| <= |text| {
      assert text[i..i + |pattern|] == text[1..][i - 1..i - 1 + |pattern|];
    }
  }

  /** The first place where `pattern` occurs. */
  function Find(text: string, pattern: string): (r: Option<nat>)
    ensures r.Some? ==> OccursAt(text, pattern, r.value) && forall i: nat :: i < r.value ==> !OccursAt(text, pattern, i)
    ensures r == None ==> forall i: nat :: !OccursAt(text, pattern, i)
  {
    if |pattern| <= |text| && text[..|pattern|] == pattern then Some(0)
    else if text == "" then None
    else
      assert forall i: nat :: i > 0 ==> (OccursAt(text, pattern, i) <==> OccursAt(text[1..], pattern, i - 1)) by {
        forall i: nat | i > 0 ensures OccursAt(text, pattern, i) <==> OccursAt(text[1..], pattern, i - 1) {
          OccursInTail(text, pattern, i);
        }
      }
      match Find(text[1..], pattern)
      case None => None
      case Some(i) => Some(i + 1)
  }

  /** The text before and after replacing the first occurrence; None without known text or occurrence. */
  function ApplyEdit(known: Option<string>, e: Replacement): Option<(string, string)>
  {
    match known
    case None => None
    case Some(before) =>
      match Find(before, e.oldText)
      case None => None
      case Some(i) => Some((before, before[..i] + e.newText + before[i + |e.oldText|..]))
  }

  /** All replacements one after the other, or None if one is malformed or finds nothing. */
  function ApplyAll(current: string, edits: seq<Option<Replacement>>): Option<string>
  {
    if edits == [] then Some(current)
    else
      match ApplyAll(current, edits[..|edits| - 1])
      case None => None
      case Some(text) =>
        match edits[|edits| - 1]
        case None => None
        case Some(e) =>
          match ApplyEdit(Some(text), e)
          case None => None
          case Some(r) => Some(r.1)
  }

  // ---------------------------------------------------------------------------
  // What each event does
  // ---------------------------------------------------------------------------

  datatype Outcome = Ignored | Seen(text: string) | Changed(before: Option<string>, after: string) | Failed(count: nat)

  /** What an event does when `known` is the last known content of its file. */
  function OutcomeOf(e: Event, known: Option<string>): Outcome
  {
    match e
    case Read(_, windowed, text) => if windowed || text == None then Ignored else Seen(text.value)
    case Write(_, content) => if content == None then Ignored else Changed(None, content.value)
    case Edit(_, replacement) =>
      if replacement == None then Ignored
      else
        (match ApplyEdit(known, replacement.value)
         case None => Failed(1)
         case Some(r) => Changed(Some(r.0), r.1))
    case MultiEdit(_, edits) =>
      if edits == None then Ignored
      else if known == None then Failed(if |edits.value| == 0 then 1 else |edits.value|)
      else
        (match ApplyAll(known.value, edits.value)
         case None => Failed(1)
         case Some(after) => Changed(known, after))
    case Other(_) => Ignored
  }

  /** The last known content of a file. */
  function Known(events: seq<Event>, path: Path): Option<string>
    decreases |events|
  {
    if events == [] then None
    else
      var last := events[|events| - 1];
      var known := Known(events[..|events| - 1], path);
      if last.path != path then known
      else
        match OutcomeOf(last, known)
        case Seen(text) => Some(text)
        case Changed(_, after) => Some(after)
        case _ => known
  }

  function OutcomeAt(events: seq<Event>, i: nat): Outcome
    requires i < |events|
  {
    OutcomeOf(events[i], Known(events[..i], events[i].path))
  }

  /** The positions of the events that changed a file. */
  function Mutations(events: seq<Event>): (r: seq<nat>)
    ensures forall k :: 0 <= k < |r| ==> r[k] < |events|
  {
    if events == [] then []
    else
      var i := |events| - 1;
      Mutations(events[..i]) + if OutcomeAt(events, i).Changed? then [i] else []
  }

  function Failures(events: seq<Event>): nat
  {
    if events == [] then 0
    else
      var i := |events| - 1;
      Failures(events[..i]) + if OutcomeAt(events, i).Failed? then OutcomeAt(events, i).count else 0
  }

  function SnapshotAt(events: seq<Event>, i: nat, number: nat): Snapshot
    requires i < |events| && OutcomeAt(events, i).Changed?
  {
    Snapshot(events[i].path, OutcomeAt(events, i).before, OutcomeAt(events, i).after, number)
  }

  lemma PrefixOutcome(events: seq<Event>, n: nat, i: nat)
    requires i < n <= |events|
    ensures OutcomeAt(events[..n], i) == OutcomeAt(events, i)
  {
    assert events[..n][..i] == events[..i];
  }

  lemma {:induction false} MutationChanges(events: seq<Event>, k: nat)
    requires k < |Mutations(events)|
    ensures OutcomeAt(events, Mutations(events)[k]).Changed?
  {
    hide OutcomeAt;
    var n := |events| - 1;
    var m := Mutations(events[..n]);
    if k < |m| {
      MutationChanges(events[..n], k);
      PrefixOutcome(events, n, m[k]);
    }
  }

  lemma {:induction false} MutationsAreAll(events: seq<Event>, i: nat)
    requires i < |events| && OutcomeAt(events, i).Changed?
    ensures i in Mutations(events)
  {
    hide OutcomeAt;
    var n := |events| - 1;
    if i < n {
      PrefixOutcome(events, n, i);
      MutationsAreAll(events[..n], i);
    }
  }

  lemma {:induction false} MutationsAscend(events: seq<Event>, k: nat, l: nat)
    requires k < l < |Mutations(events)|
    ensures Mutations(events)[k] < Mutations(events)[l]
  {
    hide OutcomeAt;
    var n := |events| - 1;
    if l < |Mutations(events[..n])| {
      MutationsAscend(events[..n], k, l);
    }
  }

  // ---------------------------------------------------------------------------
  // The replay
  // ---------------------------------------------------------------------------

  /** `snapshots` are the mutations of `events`, in order, numbered from 1. */
  ghost predicate IsReplay(events: seq<Event>, snapshots: seq<Snapshot>)
  {
    var m := Mutations(events);
    && |snapshots| == |m|
    && forall k :: 0 <= k < |m| ==>
         var outcome := OutcomeAt(events, m[k]);
         outcome.Changed? && snapshots[k] == Snapshot(events[m[k]].path, outcome.before, outcome.after, k + 1)
  }

  ghost predicate Remembers(known: map<Path, string>, events: seq<Event>)
  {
    forall p :: (if p in known then Some(known[p]) else None) == Known(events, p)
  }

  lemma ReplayIgnores(events: seq<Event>, snapshots: seq<Snapshot>)
    requires events != [] && IsReplay(events[..|events| - 1], snapshots) && !OutcomeAt(events, |events| - 1).Changed?
    ensures IsReplay(events, snapshots)
  {
    hide OutcomeAt;
    var n := |events| - 1;
    var m := Mutations(events);
    forall k | 0 <= k < |m| ensures OutcomeAt(events, m[k]) == OutcomeAt(events[..n], m[k]) {
      PrefixOutcome(events, n, m[k]);
    }
  }

  lemma ReplayAdds(events: seq<Event>, snapshots: seq<Snapshot>)
    requires events != [] && IsReplay(events[..|events| - 1], snapshots) && OutcomeAt(events, |events| - 1).Changed?
    ensures IsReplay(events, snapshots + [SnapshotAt(events, |events| - 1, |snapshots| + 1)])
  {
    hide OutcomeAt;
    var n := |events| - 1;
    var m := Mutations(events[..n]);
    forall k | 0 <= k < |m| ensures OutcomeAt(events, m[k]) == OutcomeAt(events[..n], m[k]) {
      PrefixOutcome(events, n, m[k]);
    }
  }

  /** The snapshots of a transcript. */
  ghost function Snapshots(events: seq<Event>): (r: seq<Snapshot>)
    ensures IsReplay(events, r)
  {
    if events == [] then []
    else
      var n := |events| - 1;
      var r := Snapshots(events[..n]);
      if OutcomeAt(events, n).Changed? then
        ReplayAdds(events, r);
        r + [SnapshotAt(events, n, |r| + 1)]
      else
        ReplayIgnores(events, r);
        r
  }

  lemma RemembersNext(known: map<Path, string>, events: seq<Event>)
    requires events != [] && Remembers(known, events[..|events| - 1])
    ensures var e := events[|events| - 1];
            match OutcomeAt(events, |events| - 1)
            case Seen(text) => Remembers(known[e.path := text], events)
            case Changed(_, after) => Remembers(known[e.path := after], events)
            case _ => Remembers(known, events)
  {
    hide OutcomeOf;
    assert Remembers(known, events[..|events| - 1]);
  }

  method ApplyEdits(before: string, edits: seq<Option<Replacement>>) returns (after: Option<string>)
    ensures after == ApplyAll(before, edits)
  {
    var current := before;
    for i := 0 to |edits|
      invariant ApplyAll(before, edits[..i]) == Some(current)
    {
      assert edits[..i + 1][..i] == edits[..i];
      var next: Option<(string, string)> := None;
      if edits[i].Some? {
        next := ApplyEdit(Some(current), edits[i].value);
      }
      if next == None {
        FailsForGood(before, edits, i + 1);
        return None;
      }
      current := next.value.1;
    }
    assert edits[..|edits|] == edits;
    return Some(current);
  }

  lemma {:induction false} FailsForGood(before: string, edits: seq<Option<Replacement>>, n: nat)
    requires n <= |edits| && ApplyAll(before, edits[..n]) == None
    ensures ApplyAll(before, edits) == None
    decreases |edits|
  {
    if n < |edits| {
      assert edits[..|edits| - 1][..n] == edits[..n];
      FailsForGood(before, edits[..|edits| - 1], n);
    } else {
      assert edits[..n] == edits;
    }
  }

  method ReconstructSnapshots(events: seq<Event>) returns (snapshots: seq<Snapshot>, unreconstructable: nat)
    ensures IsReplay(events, snapshots)
    ensures unreconstructable == Failures(events)
  {
    hide Remembers, IsReplay, ApplyEdit, ApplyAll, Known;
    var known: map<Path, string> := map[];
    snapshots, unreconstructable := [], 0;
    var seqNo := 0;
    NothingReplayed();
    for i := 0 to |events|
      invariant Remembers(known, events[..i])
      invariant IsReplay(events[..i], snapshots) && seqNo == |snapshots|
      invariant unreconstructable == Failures(events[..i])
    {
      var e := events[i];
      ghost var sofar := events[..i + 1];
      assert sofar[..i] == events[..i] && sofar[i] == e;
      ReadKnown(known, events[..i], e.path);
      RemembersNext(known, sofar);
      if !OutcomeAt(sofar, i).Changed? {
        ReplayIgnores(sofar, snapshots);
      } else {
        ReplayAdds(sofar, snapshots);
      }
      match e {
        case Read(path, windowed, text) =>
          if windowed {
            continue;
          }
          if text.Some? {
            known := known[path := text.value];
          }
        case Write(path, content) =>
          if content == None {
            continue;
          }
          seqNo := seqNo + 1;
          known := known[path := content.value];
          snapshots := snapshots + [Snapshot(path, None, content.value, seqNo)];
        case Edit(path, replacement) =>
          if replacement == None {
            continue;
          }
          match ApplyEdit(if path in known then Some(known[path]) else None, replacement.value) {
            case Some(r) =>
              seqNo := seqNo + 1;
              known := known[path := r.1];
              snapshots := snapshots + [Snapshot(path, Some(r.0), r.1, seqNo)];
            case None =>
              unreconstructable := unreconstructable + 1;
          }
        case MultiEdit(path, edits) =>
          if edits == None {
            continue;
          }
          if path !in known {
            unreconstructable := unreconstructable + if |edits.value| == 0 then 1 else |edits.value|;
            continue;
          }
          var before := known[path];
          var after := ApplyEdits(before, edits.value);
          if after.Some? {
            seqNo := seqNo + 1;
            known := known[path := after.value];
            snapshots := snapshots + [Snapshot(path, Some(before), after.value, seqNo)];
          } else {
            unreconstructable := unreconstructable + 1;
          }
        case Other(_) =>
      }
    }
    assert events[..|events|] == events;
  }

  lemma NothingReplayed()
    ensures Remembers(map[], []) && IsReplay([], [])
  {
  }

  lemma ReadKnown(known: map<Path, string>, events: seq<Event>, p: Path)
    requires Remembers(known, events)
    ensures (if p in known then Some(known[p]) else None) == Known(events, p)
  {
  }

  lemma ReplayIsUnique(events: seq<Event>, a: seq<Snapshot>, b: seq<Snapshot>)
    requires IsReplay(events, a) && IsReplay(events, b)
    ensures a == b
  {
    hide OutcomeAt, SnapshotAt;
    assert forall k :: 0 <= k < |a| ==> a[k] == b[k];
  }

  // ---------------------------------------------------------------------------
  // Main results
  // ---------------------------------------------------------------------------

  /** Failed and ignored events leave what is known of every file as it was. */
  lemma FailuresKeepKnown(events: seq<Event>, i: nat, p: Path)
    requires i < |events| && (OutcomeAt(events, i).Failed? || OutcomeAt(events, i).Ignored? || events[i].path != p)
    ensures Known(events[..i + 1], p) == Known(events[..i], p)
  {
    assert events[..i + 1][..i] == events[..i];
  }

  /** The replay is a chain: an edit starts from what the file's last mutation left, if no read came between. */
  lemma {:induction false} EditsChain(events: seq<Event>, i: nat, j: nat)
    requires i < j < |events| && events[i].path == events[j].path
    requires OutcomeAt(events, i).Changed? && OutcomeAt(events, j).Changed? && !events[j].Write?
    requires forall k :: i < k < j && events[k].path == events[i].path ==>
               OutcomeAt(events, k).Failed? || OutcomeAt(events, k).Ignored?
    ensures OutcomeAt(events, j).before == Some(OutcomeAt(events, i).after)
  {
    KnownLasts(events, i, j);
  }

  lemma {:induction false} KnownLasts(events: seq<Event>, i: nat, j: nat)
    requires i < j <= |events| && OutcomeAt(events, i).Changed?
    requires forall k :: i < k < j && events[k].path == events[i].path ==>
               OutcomeAt(events, k).Failed? || OutcomeAt(events, k).Ignored?
    ensures Known(events[..j], events[i].path) == Some(OutcomeAt(events, i).after)
    decreases j
  {
    if i + 1 < j {
      KnownLasts(events, i, j - 1);
      FailuresKeepKnown(events, j - 1, events[i].path);
    } else {
      assert events[..i + 1][..i] == events[..i];
    }
  }

  /** An edit's snapshot is a splice at the first occurrence, and it fails exactly when there is none. */
  lemma EditSplices(events: seq<Event>, i: nat, e: Replacement)
    requires i < |events| && events[i] == Edit(events[i].path, Some(e))
    ensures var known := Known(events[..i], events[i].path);
            match OutcomeAt(events, i)
            case Changed(before, after) =>
              before == known && known.Some? &&
              exists at: nat :: OccursAt(known.value, e.oldText, at)
                                && (forall k: nat :: k < at ==> !OccursAt(known.value, e.oldText, k))
                                && after == known.value[..at] + e.newText + known.value[at + |e.oldText|..]
            case Failed(n) => n == 1 && (known == None || forall k: nat :: !OccursAt(known.value, e.oldText, k))
            case _ => false
  {
    var known := Known(events[..i], events[i].path);
    if known.Some? && Find(known.value, e.oldText).Some? {
      var at := Find(known.value, e.oldText).value;
      assert OccursAt(known.value, e.oldText, at);
    }
  }

  /** A whole read and a write tell what is known from then on; only the write is a mutation, without a text before. */
  lemma ReadsAndWritesAreKnown(events: seq<Event>, i: nat, text: string)
    requires i < |events|
    ensures events[i] == Read(events[i].path, false, Some(text)) ==>
              Known(events[..i + 1], events[i].path) == Some(text) && i !in Mutations(events)
              && !OutcomeAt(events, i).Failed?
    ensures events[i] == Write(events[i].path, Some(text)) ==>
              Known(events[..i + 1], events[i].path) == Some(text) && OutcomeAt(events, i) == Changed(None, text)
  {
    assert events[..i + 1][..i] == events[..i];
    if i in Mutations(events) {
      var k :| 0 <= k < |Mutations(events)| && Mutations(events)[k] == i;
      MutationChanges(events, k);
    }
  }

  /** Reads of a part, parts that are missing, and other tools neither tell nor change nor fail anything. */
  lemma OthersAreIgnored(events: seq<Event>, i: nat)
    requires i < |events|
    ensures match events[i]
            case Read(_, windowed, text) => windowed || text == None ==> OutcomeAt(events, i) == Ignored
            case Write(_, content) => content == None ==> OutcomeAt(events, i) == Ignored
            case Edit(_, replacement) => replacement == None ==> OutcomeAt(events, i) == Ignored
            case MultiEdit(_, edits) => edits == None ==> OutcomeAt(events, i) == Ignored
            case Other(_) => OutcomeAt(events, i) == Ignored
  {
  }

  /** The parts of a multiple edit, as single edits one after the other. */
  function Singles(path: Path, edits: seq<Option<Replacement>>): seq<Event>
  {
    seq(|edits|, i requires 0 <= i < |edits| => Edit(path, edits[i]))
  }

  /** From `start` on every event changes its file. */
  ghost predicate AllChange(events: seq<Event>, start: nat)
  {
    forall j :: start <= j < |events| ==> OutcomeAt(events, j).Changed?
  }

  lemma LastChanges(events: seq<Event>, start: nat)
    requires start < |events|
    ensures AllChange(events, start)
            <==> AllChange(events[..|events| - 1], start) && OutcomeAt(events, |events| - 1).Changed?
  {
    hide OutcomeAt;
    var before := events[..|events| - 1];
    forall j | start <= j < |before| ensures OutcomeAt(events, j) == OutcomeAt(before, j) {
      PrefixOutcome(events, |before|, j);
    }
  }

  /** One replacement on this text. */
  function ApplyOne(text: string, e: Option<Replacement>): Option<string>
  {
    if e == None then None
    else if ApplyEdit(Some(text), e.value) == None then None
    else Some(ApplyEdit(Some(text), e.value).value.1)
  }

  lemma LastApplies(current: string, edits: seq<Option<Replacement>>)
    requires edits != []
    ensures var text := ApplyAll(current, edits[..|edits| - 1]);
            ApplyAll(current, edits) == if text == None then None else ApplyOne(text.value, edits[|edits| - 1])
  {
    hide ApplyEdit;
  }

  lemma EditApplies(events: seq<Event>, path: Path, e: Option<Replacement>)
    requires Known(events, path).Some?
    ensures var all, after := events + [Edit(path, e)], ApplyOne(Known(events, path).value, e);
            && (OutcomeAt(all, |events|).Changed? <==> after.Some?)
            && (after.Some? ==> Known(all, path) == after)
  {
    hide ApplyEdit;
    assert (events + [Edit(path, e)])[..|events|] == events;
  }

  lemma {:induction false} SinglesApply(events: seq<Event>, path: Path, edits: seq<Option<Replacement>>)
    requires Known(events, path).Some?
    ensures var all, known := events + Singles(path, edits), Known(events, path).value;
            && (ApplyAll(known, edits).Some? <==> AllChange(all, |events|))
            && (ApplyAll(known, edits).Some? ==> Known(all, path) == ApplyAll(known, edits))
  {
    var all, known := events + Singles(path, edits), Known(events, path).value;
    if edits == [] {
      assert all == events;
    } else {
      var n := |edits| - 1;
      var before := events + Singles(path, edits[..n]);
      SinglesApply(events, path, edits[..n]);
      assert all == before + [Edit(path, edits[n])] && all[..|before|] == before && |before| == |all| - 1;
      hide *;
      LastApplies(known, edits);
      LastChanges(all, |events|);
      if ApplyAll(known, edits[..n]).Some? {
        EditApplies(before, path, edits[n]);
      }
    }
  }

  /**
   * A multiple edit of a known file does what its parts would do as single edits one after the other, as one
   * mutation, if none of these would fail or be ignored; otherwise it fails once and changes nothing. For an unknown
   * file each part counts as a failure.
   */
  lemma MultiEditIsAllOrNothing(events: seq<Event>, path: Path, edits: seq<Option<Replacement>>)
    ensures var now, all := events + [MultiEdit(path, Some(edits))], events + Singles(path, edits);
            var outcome := OutcomeAt(now, |events|);
            if Known(events, path) == None then outcome == Failed(if edits == [] then 1 else |edits|)
            else if AllChange(all, |events|) then
              outcome.Changed? && outcome.before == Known(events, path) && Some(outcome.after) == Known(all, path)
            else outcome == Failed(1)
  {
    var now := events + [MultiEdit(path, Some(edits))];
    assert now[..|events|] == events;
    hide ApplyEdit, ApplyAll, AllChange, Known;
    if Known(events, path).Some? {
      SinglesApply(events, path, edits);
    }
  }
}
