/**
 Translation of the ad service's cue points into the playback engine's break
 descriptors. For cue point `i` the receiver builds a break clip `BC_i` and a
 break `B_i` that refers to that clip alone; both last `end - start`, the
 break is embedded in the stream, is watched exactly when the cue point was
 played, and is positioned at the cue's start less the total duration of all
 earlier breaks.
 */
module CueBreaks {
  import JsStrings

  /** An ad break as the ad service reports it. */
  datatype CuePoint = CuePoint(start: real, end: real, played: bool)

  /** The two fields of a playback-engine break clip that the receiver sets. */
  datatype BreakClip = BreakClip(id: string, duration: real)

  /** The fields of a playback-engine break that the receiver sets. */
  datatype Break = Break(
    id: string,
    breakClipIds: seq<string>,
    position: real,
    isEmbedded: bool,
    isWatched: bool,
    duration: real)

  function Duration(c: CuePoint): real {
    c.end - c.start
  }

  /** Sum of the durations of `cues`, accumulated front to back. */
  function TotalDuration(cues: seq<CuePoint>): real {
    if cues == [] then 0.0
    else TotalDuration(cues[..|cues| - 1]) + Duration(cues[|cues| - 1])
  }

  /** The id of clip `i`: `BC_` followed by the decimal digits of `i`, with no leading zero. */
  function ClipId(i: nat): (id: string)
    ensures |id| >= 4 && id[..3] == "BC_"
    ensures JsStrings.IsDigits(id[3..]) && (id[3] != '0' || i == 0)
  {
    var digits := JsStrings.NatToString(i);
    assert ("BC_" + digits)[3..] == digits;
    "BC_" + digits
  }

  /** The id of break `i`: `B_` followed by the decimal digits of `i`, with no leading zero. */
  function BreakId(i: nat): (id: string)
    ensures |id| >= 3 && id[..2] == "B_"
    ensures JsStrings.IsDigits(id[2..]) && (id[2] != '0' || i == 0)
  {
    var digits := JsStrings.NatToString(i);
    assert ("B_" + digits)[2..] == digits;
    "B_" + digits
  }

  /**
   Where break `i` is placed: its cue's start less the durations of all earlier
   breaks, so the first break sits at its cue's start.
   */
  function Position(cues: seq<CuePoint>, i: nat): (p: real)
    requires i < |cues|
    ensures p + TotalDuration(cues[..i]) == cues[i].start
    ensures i == 0 ==> p == cues[0].start
  {
    cues[i].start - TotalDuration(cues[..i])
  }

  /** The break clip the receiver builds for cue point `i`: it lasts as long as the cue point. */
  function ClipFor(cues: seq<CuePoint>, i: nat): (c: BreakClip)
    requires i < |cues|
    ensures c.id == ClipId(i)
    ensures c.duration + cues[i].start == cues[i].end
  {
    BreakClip(ClipId(i), Duration(cues[i]))
  }

  /**
   The break the receiver builds for cue point `i`: it refers to clip `i` alone,
   lasts as long as that clip, is embedded, is watched iff the cue point was
   played, and sits at `Position(cues, i)`.
   */
  function BreakFor(cues: seq<CuePoint>, i: nat): (b: Break)
    requires i < |cues|
    ensures b.id == BreakId(i) && b.breakClipIds == [ClipFor(cues, i).id]
    ensures b.duration == ClipFor(cues, i).duration
    ensures b.isEmbedded && (b.isWatched <==> cues[i].played)
    ensures b.position == Position(cues, i)
  {
    Break(BreakId(i), [ClipId(i)], Position(cues, i), true, cues[i].played, Duration(cues[i]))
  }

  /** Break ids and clip ids are unique, and no break id is a clip id. */
  lemma IdsUnique(i: nat, j: nat)
    ensures BreakId(i) == BreakId(j) <==> i == j
    ensures ClipId(i) == ClipId(j) <==> i == j
    ensures BreakId(i) != ClipId(j)
  {
    assert BreakId(i)[1] != ClipId(j)[1];
    if BreakId(i) == BreakId(j) {
      assert BreakId(i)[2..] == JsStrings.NatToString(i);
      assert BreakId(j)[2..] == JsStrings.NatToString(j);
      JsStrings.NatToStringInjective(i, j);
    }
    if ClipId(i) == ClipId(j) {
      assert ClipId(i)[3..] == JsStrings.NatToString(i);
      assert ClipId(j)[3..] == JsStrings.NatToString(j);
      JsStrings.NatToStringInjective(i, j);
    }
  }

  /** Extending the prefix by one cue point adds that cue point's duration (the loop's accumulator step). */
  lemma TotalDurationStep(cues: seq<CuePoint>, i: nat)
    requires i < |cues|
    ensures TotalDuration(cues[..i + 1]) == TotalDuration(cues[..i]) + Duration(cues[i])
  {
    assert cues[..i + 1][..i] == cues[..i];
  }

  /** Cue points with non-negative durations, in order, none overlapping the next. */
  predicate Ordered(cues: seq<CuePoint>) {
    (forall i :: 0 <= i < |cues| ==> cues[i].start <= cues[i].end) &&
    (forall i :: 0 < i < |cues| ==> cues[i - 1].end <= cues[i].start)
  }

  /** In ordered cue points every break ends before any later one starts. */
  lemma {:induction false} OrderedChain(cues: seq<CuePoint>, i: nat, j: nat)
    requires Ordered(cues)
    requires i < j < |cues|
    ensures cues[i].end <= cues[j].start
  {
    if i + 1 < j {
      OrderedChain(cues, i, j - 1);
      assert cues[j - 1].start <= cues[j - 1].end;
    }
  }

  /** Consecutive break positions are as far apart as the content between the two breaks. */
  lemma PositionGap(cues: seq<CuePoint>, i: nat)
    requires i + 1 < |cues|
    ensures Position(cues, i + 1) - Position(cues, i) == cues[i + 1].start - cues[i].end
  {
    TotalDurationStep(cues, i);
  }

  /** For ordered cue points the breaks come out in non-decreasing position order. */
  lemma {:induction false} PositionsNondecreasing(cues: seq<CuePoint>, i: nat, j: nat)
    requires Ordered(cues)
    requires i <= j < |cues|
    ensures Position(cues, i) <= Position(cues, j)
  {
    if i < j {
      PositionsNondecreasing(cues, i, j - 1);
      PositionGap(cues, j - 1);
    }
  }

  /** Total ad time among the cue points that have ended by stream time `t`. */
  function DurationEndedBy(cues: seq<CuePoint>, t: real): real {
    if cues == [] then 0.0
    else
      var last := cues[|cues| - 1];
      DurationEndedBy(cues[..|cues| - 1], t) + (if last.end <= t then Duration(last) else 0.0)
  }

  /** The first `k` cue points contribute, by break `i`'s start, exactly the durations of those before `i`. */
  lemma {:induction false} DurationEndedByPrefix(cues: seq<CuePoint>, i: nat, k: nat)
    requires Ordered(cues)
    requires i < |cues| && k <= |cues|
    ensures DurationEndedBy(cues[..k], cues[i].start) == TotalDuration(cues[..if k <= i then k else i])
  {
    if k > 0 {
      var t := cues[i].start;
      DurationEndedByPrefix(cues, i, k - 1);
      assert cues[..k][..k - 1] == cues[..k - 1];
      if k - 1 < i {
        OrderedChain(cues, k - 1, i);
        TotalDurationStep(cues, k - 1);
      } else if k - 1 > i {
        OrderedChain(cues, i, k - 1);
      }
    }
  }

  /**
   With ordered cue points, break `i`'s position is the stream time of its
   start with all ad time that has ended by then taken out.
   */
  lemma PositionRemovesEarlierAdTime(cues: seq<CuePoint>, i: nat)
    requires Ordered(cues)
    requires i < |cues|
    ensures Position(cues, i) == cues[i].start - DurationEndedBy(cues, cues[i].start)
  {
    DurationEndedByPrefix(cues, i, |cues|);
    assert cues[..|cues|] == cues;
  }

  /** With ordered cue points starting at or after zero, every position lies between 0 and its cue's start. */
  lemma PositionBounds(cues: seq<CuePoint>, i: nat)
    requires Ordered(cues)
    requires i < |cues| && cues[0].start >= 0.0
    ensures 0.0 <= Position(cues, i) <= cues[i].start
  {
    PositionsNondecreasing(cues, 0, i);
    TotalDurationNonNegative(cues[..i]);
  }

  /** Durations of ordered cue points add up to a non-negative total. */
  lemma {:induction false} TotalDurationNonNegative(cues: seq<CuePoint>)
    requires forall i :: 0 <= i < |cues| ==> cues[i].start <= cues[i].end
    ensures TotalDuration(cues) >= 0.0
  {
    if cues != [] {
      TotalDurationNonNegative(cues[..|cues| - 1]);
    }
  }
}
