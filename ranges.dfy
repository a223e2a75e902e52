/** Pitch ranges (`AbsoluteRange`) and interval ranges (`RelativeRange`):
    construction, the one-line text form and transposition
    (lib/music.py:298-379). */
module Ranges {
  import opened Wrappers
  import opened Text
  import opened Consts
  import opened Intervals
  import opened Pitches

  /** A range from `start` to `end` with a free-text description; ranges
      that are not `preferred` are drawn hollow and described in italics. */
  datatype Range<E> = Range(start: E, end: E, descr: string, preferred: bool)

  /** The fields of a range line before its endpoints are parsed. */
  datatype RangeLine = RangeLine(start: string, end: string, descr: string, preferred: bool)

  /** `start, end, *rest = string.split()` and the `!` marker: fewer than two
      tokens cannot be unpacked (ValueError); a leading `!` on the first
      token is dropped and marks the range as not preferred. */
  function SplitRangeLine(s: string): (r: Result<RangeLine>)
    ensures r.Ok? <==> |SplitWs(s)| >= 2
    ensures r.Err? ==> r.error == ValueError
    ensures r.Ok? ==> r.value.end == SplitWs(s)[1] && r.value.descr == Join(" ", SplitWs(s)[2..])
    ensures r.Ok? ==> (r.value.preferred <==> SplitWs(s)[0][0] != '!')
  {
    RangeLineOfTokens(SplitWs(s))
  }

  /** The unpacking step of `SplitRangeLine`, on the whitespace tokens. */
  function RangeLineOfTokens(tokens: seq<string>): (r: Result<RangeLine>)
    requires forall k :: 0 <= k < |tokens| ==> |tokens[k]| > 0
    ensures r.Ok? <==> |tokens| >= 2
    ensures r.Err? ==> r.error == ValueError
    ensures r.Ok? ==> r.value.end == tokens[1] && r.value.descr == Join(" ", tokens[2..])
    ensures r.Ok? ==> (r.value.preferred <==> tokens[0][0] != '!')
    ensures r.Ok? && r.value.preferred ==> r.value.start == tokens[0]
    ensures r.Ok? && !r.value.preferred ==> [tokens[0][0]] + r.value.start == tokens[0]
  {
    if |tokens| < 2 then Err(ValueError)
    else
      var first := tokens[0];
      if first[0] == '!' then
        assert [first[0]] + first[1..] == first;
        Ok(RangeLine(first[1..], tokens[1], Join(" ", tokens[2..]), false))
      else Ok(RangeLine(first, tokens[1], Join(" ", tokens[2..]), true))
  }

  /** A description survives `" ".join(s.split())` unchanged: no leading,
      trailing or repeated whitespace. */
  predicate SingleSpaced(descr: string) {
    Join(" ", SplitWs(descr)) == descr
  }

  /** The text of a range line whose endpoints are already formatted. */
  function RangeLineToString(start: string, end: string, descr: string, preferred: bool): string {
    (if preferred then "" else "!") + start + " " + end + " " + descr
  }

  /** The first token of a formatted line: the start text, with `!` in
      front when the range is not preferred. */
  function MarkedStart(start: string, preferred: bool): string {
    (if preferred then "" else "!") + start
  }

  lemma MarkedStartIsAWord(start: string, preferred: bool)
    requires |start| > 0 && NoSpace(start) && start[0] != '!'
    ensures |MarkedStart(start, preferred)| > 0 && NoSpace(MarkedStart(start, preferred))
    ensures MarkedStart(start, preferred)[0] == '!' <==> !preferred
    ensures !preferred ==> MarkedStart(start, preferred)[1..] == start
  {
    var first := MarkedStart(start, preferred);
    if !preferred {
      assert forall k :: 1 <= k < |first| ==> first[k] == start[k - 1];
    }
  }

  /** The whitespace tokens of a formatted line. */
  lemma RangeLineTokens(first: string, end: string, descr: string)
    requires |first| > 0 && NoSpace(first) && |end| > 0 && NoSpace(end)
    ensures SplitWs(first + " " + end + " " + descr) == [first, end] + SplitWs(descr)
  {
    assert first + " " + end + " " + descr == first + " " + (end + " " + descr);
    SplitWsWord(first, end + " " + descr);
    SplitWsWord(end, descr);
    assert [first] + ([end] + SplitWs(descr)) == [first, end] + SplitWs(descr);
  }

  /** Splitting a formatted line gives back its parts when neither endpoint
      text is empty, holds whitespace, or starts with `!`. */
  lemma SplitRangeLineRoundTrip(start: string, end: string, descr: string, preferred: bool)
    requires |start| > 0 && NoSpace(start) && start[0] != '!'
    requires |end| > 0 && NoSpace(end)
    requires SingleSpaced(descr)
    ensures SplitRangeLine(RangeLineToString(start, end, descr, preferred))
            == Ok(RangeLine(start, end, descr, preferred))
  {
    var first := MarkedStart(start, preferred);
    MarkedStartIsAWord(start, preferred);
    var tokens := [first, end] + SplitWs(descr);
    assert SplitWs(RangeLineToString(start, end, descr, preferred)) == tokens by {
      RangeLineTokens(first, end, descr);
    }
    assert tokens[2..] == SplitWs(descr);
    var line := RangeLineOfTokens(tokens);
    assert line.Ok? && line.value.end == end && line.value.descr == descr;
    assert line.value.preferred == preferred;
    if preferred {
      assert line.value.start == start;
    } else {
      assert line.value.start == first[1..];
    }
  }

  // ---------------------------------------------------------------- absolute ranges

  /** `AbsoluteRange(start, end, descr, preferred)`: the start must not sort
      after the end. */
  function NewAbsoluteRange(start: Pitch, end: Pitch, descr: string, preferred: bool): (r: Result<Range<Pitch>>)
    ensures r.Ok? <==> NumLexOrd(start) <= NumLexOrd(end)
    ensures r.Ok? ==> r.value == Range(start, end, descr, preferred)
    ensures r.Err? ==> r.error == AssertionError
  {
    if NumLexOrd(start) <= NumLexOrd(end) then Ok(Range(start, end, descr, preferred))
    else Err(AssertionError)
  }

  /** A pitch range as `AbsoluteRange.__init__` accepts it. */
  predicate ValidAbsolute(r: Range<Pitch>) {
    NumLexOrd(r.start) <= NumLexOrd(r.end)
  }

  /** `AbsoluteRange.from_str`. */
  function AbsoluteRangeFromString(s: string): (r: Result<Range<Pitch>>)
    ensures r.Ok? ==> ValidAbsolute(r.value)
  {
    var line :- SplitRangeLine(s);
    var start :- PitchFromString(line.start);
    var end :- PitchFromString(line.end);
    NewAbsoluteRange(start, end, line.descr, line.preferred)
  }

  /** `str(range)` for pitch ranges. */
  function AbsoluteRangeToString(r: Range<Pitch>): string {
    RangeLineToString(PitchToString(r.start), PitchToString(r.end), r.descr, r.preferred)
  }

  lemma PitchTextIsAWord(p: Pitch)
    ensures |PitchToString(p)| > 0 && NoSpace(PitchToString(p)) && PitchToString(p)[0] != '!'
  {
    var s := PitchToString(p);
    var num := IntToString(p.octave);
    var prefix := [LetterChar(p.note)] + (if p.accidental == Natural then "" else [AccidentalChar(p.accidental)]);
    assert s == prefix + num;
    assert forall k :: 0 <= k < |prefix| ==> !IsSpace(s[k]);
    assert forall k :: |prefix| <= k < |s| ==> s[k] == num[k - |prefix|];
  }

  /** Every valid pitch range with a single-spaced description reads back
      from its text form. */
  lemma AbsoluteRangeStringRoundTrip(r: Range<Pitch>)
    requires ValidAbsolute(r) && SingleSpaced(r.descr)
    ensures AbsoluteRangeFromString(AbsoluteRangeToString(r)) == Ok(r)
  {
    PitchTextIsAWord(r.start);
    PitchTextIsAWord(r.end);
    SplitRangeLineRoundTrip(PitchToString(r.start), PitchToString(r.end), r.descr, r.preferred);
    PitchStringRoundTrip(r.start);
    PitchStringRoundTrip(r.end);
  }

  /** `AbsoluteRange.transposed`: both endpoints move by the interval; the
      constructor's order check runs again on the result. */
  function TransposedRange(r: Range<Pitch>, i: Interval): (t: Result<Range<Pitch>>)
    requires Fits(i.number, i.modifier)
    ensures t.Ok? ==> t.value.descr == r.descr && t.value.preferred == r.preferred
    ensures t.Ok? ==> MidiPitch(t.value.start) == MidiPitch(r.start) + ToHalftones(i)
    ensures t.Ok? ==> MidiPitch(t.value.end) == MidiPitch(r.end) + ToHalftones(i)
    ensures t.Err? ==> t.error == AssertionError
  {
    NewAbsoluteRange(Transposed(r.start, i), Transposed(r.end, i), r.descr, r.preferred)
  }

  /** When both endpoints can be spelled on their target positions,
      transposing a valid range succeeds. */
  lemma TransposedRangeSucceeds(r: Range<Pitch>, i: Interval)
    requires Fits(i.number, i.modifier) && ValidAbsolute(r)
    requires -2 <= NeededShift(r.start, i) <= 2 && -2 <= NeededShift(r.end, i) <= 2
    ensures TransposedRange(r, i).Ok?
  {
    TransposePreservesOrder(r.start, r.end, i);
  }

  // ---------------------------------------------------------------- relative ranges

  /** `RelativeRange(start, end, descr, preferred)`. */
  function NewRelativeRange(start: Interval, end: Interval, descr: string, preferred: bool): (r: Result<Range<Interval>>)
    ensures r.Ok? <==> IntervalLexOrd(start) <= IntervalLexOrd(end)
    ensures r.Ok? ==> r.value == Range(start, end, descr, preferred)
    ensures r.Err? ==> r.error == AssertionError
  {
    if IntervalLexOrd(start) <= IntervalLexOrd(end) then Ok(Range(start, end, descr, preferred))
    else Err(AssertionError)
  }

  predicate ValidRelative(r: Range<Interval>) {
    Valid(r.start) && Valid(r.end) && IntervalLexOrd(r.start) <= IntervalLexOrd(r.end)
  }

  /** `RelativeRange.from_str`. */
  function RelativeRangeFromString(s: string): (r: Result<Range<Interval>>)
    ensures r.Ok? ==> ValidRelative(r.value)
  {
    var line :- SplitRangeLine(s);
    var start :- IntervalFromString(line.start);
    var end :- IntervalFromString(line.end);
    NewRelativeRange(start, end, line.descr, line.preferred)
  }

  /** `str(range)` for interval ranges. */
  function RelativeRangeToString(r: Range<Interval>): string {
    RangeLineToString(IntervalToString(r.start), IntervalToString(r.end), r.descr, r.preferred)
  }

  /** Every valid interval range with a single-spaced description reads back
      from its text form. */
  lemma RelativeRangeStringRoundTrip(r: Range<Interval>)
    requires ValidRelative(r) && SingleSpaced(r.descr)
    ensures RelativeRangeFromString(RelativeRangeToString(r)) == Ok(r)
  {
    SplitRangeLineRoundTrip(IntervalToString(r.start), IntervalToString(r.end), r.descr, r.preferred);
    IntervalStringRoundTrip(r.start);
    IntervalStringRoundTrip(r.end);
  }
}
