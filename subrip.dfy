/**
 * The SubRip document the worker writes: numbered cues, each an index line,
 * a timing line, the stripped text and a blank line; and a reader for that
 * layout, used to show that the written document carries every segment.
 */
module SubRip {
  import opened Decimal
  import opened Text
  import opened Timestamp

  /** One recognised segment: start and end in milliseconds, and its text. */
  datatype Segment = Segment(start: nat, end: nat, text: string)

  /** The timing line of a cue, both ends formatted with the default options. */
  function TimingLine(seg: Segment): string
  {
    FormatTimestamp(seg.start) + " --> " + FormatTimestamp(seg.end)
  }

  /** The four lines of cue number `index`; the empty fourth line separates cues. */
  function CueLines(index: nat, seg: Segment): seq<string>
  {
    [NatToString(index), TimingLine(seg), PyStrip(seg.text), ""]
  }

  /** Lines each followed by a line feed. */
  function JoinLines(lines: seq<string>): string
  {
    if lines == [] then "" else lines[0] + "\n" + JoinLines(lines[1..])
  }

  /** The text of cue number `index`. */
  function CueText(index: nat, seg: Segment): string
  {
    JoinLines(CueLines(index, seg))
  }

  lemma JoinFourLines(a: string, b: string, c: string, d: string)
    ensures JoinLines([a, b, c, d]) == a + "\n" + b + "\n" + c + "\n" + d + "\n"
  {
    assert JoinLines([d]) == d + "\n" + JoinLines([]);
    assert JoinLines([c, d]) == c + "\n" + JoinLines([d]);
    assert JoinLines([b, c, d]) == b + "\n" + JoinLines([c, d]);
    assert JoinLines([a, b, c, d]) == a + "\n" + JoinLines([b, c, d]);
  }

  /** The cues for `segments`, numbered consecutively from `first`. */
  function SrtCues(segments: seq<Segment>, first: nat): string
  {
    if segments == [] then "" else CueText(first, segments[0]) + SrtCues(segments[1..], first + 1)
  }

  /** The SubRip document: cues numbered from 1, as `enumerate(..., start=1)` numbers them. */
  function SrtText(segments: seq<Segment>): string
  {
    SrtCues(segments, 1)
  }

  lemma {:induction false} SrtCuesSnoc(segments: seq<Segment>, seg: Segment, first: nat)
    ensures SrtCues(segments + [seg], first) == SrtCues(segments, first) + CueText(first + |segments|, seg)
    decreases |segments|
  {
    if segments == [] {
      assert SrtCues([seg], first) == CueText(first, seg) + SrtCues([], first + 1);
    } else {
      assert (segments + [seg])[1..] == segments[1..] + [seg];
      SrtCuesSnoc(segments[1..], seg, first + 1);
    }
  }

  // ---------------------------------------------------------------------
  // Reading the SubRip text back
  // ---------------------------------------------------------------------

  /** Splits text at line feeds; a final line without a line feed is kept. */
  function SplitLines(s: string): seq<string>
    decreases |s|
  {
    if s == [] then []
    else match IndexOfChar(s, '\n')
      case None => [s]
      case Some(i) => [s[..i]] + SplitLines(s[i + 1..])
  }

  /** A cue as read from SubRip text. */
  datatype Cue = Cue(index: nat, start: nat, end: nat, text: string)

  function ParseCue(lines: seq<string>): Option<Cue>
    requires |lines| == 4
  {
    var timing := lines[1];
    match IndexOf(timing, " --> ")
    case None => None
    case Some(i) =>
      var start := ParseTimestamp(timing[..i], ",");
      var end := ParseTimestamp(timing[i + 5..], ",");
      if lines[0] != "" && AllDigits(lines[0]) && start.Some? && end.Some? && lines[3] == ""
      then Some(Cue(ValueOf(lines[0]), start.value, end.value, lines[2]))
      else None
  }

  function ParseCues(lines: seq<string>): Option<seq<Cue>>
    decreases |lines|
  {
    if lines == [] then Some([])
    else if |lines| < 4 then None
    else match (ParseCue(lines[..4]), ParseCues(lines[4..]))
      case (Some(cue), Some(rest)) => Some([cue] + rest)
      case _ => None
  }

  /** Reads SubRip text as written by the worker: groups of four lines. */
  function ParseSrt(s: string): Option<seq<Cue>>
  {
    ParseCues(SplitLines(s))
  }

  /** All lines of the cues for `segments`, numbered from `first`. */
  function AllCueLines(segments: seq<Segment>, first: nat): seq<string>
  {
    if segments == [] then [] else CueLines(first, segments[0]) + AllCueLines(segments[1..], first + 1)
  }

  /** The cues a reader should find for `segments`, numbered from `first`. */
  function ExpectedCues(segments: seq<Segment>, first: nat): (cues: seq<Cue>)
    ensures |cues| == |segments|
    ensures forall i :: 0 <= i < |segments| ==>
      cues[i] == Cue(first + i, segments[i].start, segments[i].end, PyStrip(segments[i].text))
  {
    if segments == [] then []
    else
      [Cue(first, segments[0].start, segments[0].end, PyStrip(segments[0].text))]
      + ExpectedCues(segments[1..], first + 1)
  }

  lemma {:induction false} JoinLinesAppend(a: seq<string>, b: seq<string>)
    ensures JoinLines(a + b) == JoinLines(a) + JoinLines(b)
    decreases |a|
  {
    if a == [] {
      assert a + b == b;
    } else {
      assert (a + b)[1..] == a[1..] + b;
      JoinLinesAppend(a[1..], b);
    }
  }

  lemma {:induction false} SrtCuesLines(segments: seq<Segment>, first: nat)
    ensures SrtCues(segments, first) == JoinLines(AllCueLines(segments, first))
    decreases |segments|
  {
    if segments != [] {
      SrtCuesLines(segments[1..], first + 1);
      JoinLinesAppend(CueLines(first, segments[0]), AllCueLines(segments[1..], first + 1));
    }
  }

  /** Lines without line feeds survive joining and splitting. */
  lemma {:induction false} SplitJoinLines(lines: seq<string>)
    requires forall k :: 0 <= k < |lines| ==> '\n' !in lines[k]
    ensures SplitLines(JoinLines(lines)) == lines
    decreases |lines|
  {
    if lines != [] {
      var s := JoinLines(lines);
      var l := lines[0];
      assert s == l + "\n" + JoinLines(lines[1..]);
      assert s[|l|] == '\n';
      assert forall j :: 0 <= j < |l| ==> s[j] == l[j];
      assert IndexOfChar(s, '\n') == Some(|l|);
      assert s[..|l|] == l;
      assert s[|l| + 1..] == JoinLines(lines[1..]);
      SplitJoinLines(lines[1..]);
    }
  }

  /** The first ` --> ` in a timing line is the one between its two timestamps. */
  lemma TimingSplit(a: string, b: string)
    requires ' ' !in a
    ensures IndexOf(a + " --> " + b, " --> ") == Some(|a|)
    ensures (a + " --> " + b)[..|a|] == a && (a + " --> " + b)[|a| + 5..] == b
  {
    var s := a + " --> " + b;
    var pat := " --> ";
    assert s[|a|..|a| + 5] == pat;
    assert OccursAt(s, pat, |a|);
    forall j | 0 <= j < |a|
      ensures !OccursAt(s, pat, j)
    {
      assert s[j] == a[j] != ' ';
      assert j + 5 <= |s| ==> s[j..j + 5][0] == s[j];
    }
  }

  lemma TimestampHasNoBreak(totalMs: nat)
    ensures ' ' !in FormatTimestamp(totalMs) && '\n' !in FormatTimestamp(totalMs)
  {
    var s := FormatTimestamp(totalMs);
    TimestampCharacters(totalMs);
    forall i | 0 <= i < |s|
      ensures s[i] != ' ' && s[i] != '\n'
    {
      assert IsDigit(s[i]) || s[i] == ':' || s[i] == ',';
    }
  }

  lemma ParseOneCue(index: nat, seg: Segment)
    ensures ParseCue(CueLines(index, seg)) == Some(Cue(index, seg.start, seg.end, PyStrip(seg.text)))
  {
    var a, b := FormatTimestamp(seg.start), FormatTimestamp(seg.end);
    TimestampHasNoBreak(seg.start);
    TimingSplit(a, b);
    TimestampRoundTrip(seg.start, false, ",");
    TimestampRoundTrip(seg.end, false, ",");
    ValueOfNatToString(index);
  }

  lemma {:induction false} ParseAllCueLines(segments: seq<Segment>, first: nat)
    ensures ParseCues(AllCueLines(segments, first)) == Some(ExpectedCues(segments, first))
    decreases |segments|
  {
    if segments != [] {
      var lines := AllCueLines(segments, first);
      assert lines[..4] == CueLines(first, segments[0]);
      assert lines[4..] == AllCueLines(segments[1..], first + 1);
      ParseOneCue(first, segments[0]);
      ParseAllCueLines(segments[1..], first + 1);
    }
  }

  lemma NoBreakInTiming(a: string, b: string)
    requires '\n' !in a && '\n' !in b
    ensures '\n' !in a + " --> " + b
  {
  }

  lemma NoBreakInDigits(n: string)
    requires AllDigits(n)
    ensures '\n' !in n
  {
  }

  lemma OneCueHasNoBreak(index: nat, seg: Segment)
    requires '\n' !in PyStrip(seg.text)
    ensures forall k :: 0 <= k < 4 ==> '\n' !in CueLines(index, seg)[k]
  {
    TimestampHasNoBreak(seg.start);
    TimestampHasNoBreak(seg.end);
    NoBreakInTiming(FormatTimestamp(seg.start), FormatTimestamp(seg.end));
    NoBreakInDigits(NatToString(index));
  }

  lemma {:induction false} CueLinesHaveNoBreak(segments: seq<Segment>, first: nat)
    requires forall i :: 0 <= i < |segments| ==> '\n' !in PyStrip(segments[i].text)
    ensures forall k :: 0 <= k < |AllCueLines(segments, first)| ==> '\n' !in AllCueLines(segments, first)[k]
    decreases |segments|
  {
    if segments != [] {
      OneCueHasNoBreak(first, segments[0]);
      CueLinesHaveNoBreak(segments[1..], first + 1);
      var head, rest := CueLines(first, segments[0]), AllCueLines(segments[1..], first + 1);
      forall k | 0 <= k < |head + rest|
        ensures '\n' !in (head + rest)[k]
      {
        if k < 4 {
          assert (head + rest)[k] == head[k];
        } else {
          assert (head + rest)[k] == rest[k - 4];
        }
      }
    }
  }

  /**
   * Reading the written document back finds exactly one cue per segment, in
   * segment order, numbered 1, 2, ..., with the segment's start and end and
   * its stripped text. Holds whenever no stripped text contains a line feed
   * (a line feed inside a text would split its cue line in two).
   */
  lemma SrtRoundTrip(segments: seq<Segment>)
    requires forall i :: 0 <= i < |segments| ==> '\n' !in PyStrip(segments[i].text)
    ensures var cues := ParseSrt(SrtText(segments));
      cues.Some? && |cues.value| == |segments|
      && forall i :: 0 <= i < |segments| ==>
        cues.value[i] == Cue(i + 1, segments[i].start, segments[i].end, PyStrip(segments[i].text))
  {
    SrtCuesLines(segments, 1);
    CueLinesHaveNoBreak(segments, 1);
    SplitJoinLines(AllCueLines(segments, 1));
    ParseAllCueLines(segments, 1);
  }
}
