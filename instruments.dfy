/** Instruments and stringed instruments: construction (sorting and the
    touching-but-not-overlapping rule), reading from parsed fields, sounding
    ranges and the sounding extremes (lib/inst_graph.py:18-124, 223-275). */
module Instruments {
  import opened Wrappers
  import opened Text
  import opened Consts
  import opened Intervals
  import opened Pitches
  import opened Ranges
  import opened NoteHeads

  // ---------------------------------------------------------------- sorting

  predicate SortedBy<T>(xs: seq<T>, key: T -> int) {
    forall i, j :: 0 <= i < j < |xs| ==> key(xs[i]) <= key(xs[j])
  }

  /** Every key of `xs` is at least `b`. */
  predicate AtLeast<T>(xs: seq<T>, key: T -> int, b: int) {
    forall i :: 0 <= i < |xs| ==> b <= key(xs[i])
  }

  /** Prepending an element no larger than the rest keeps a list sorted. */
  lemma ConsSorted<T>(y: T, rest: seq<T>, key: T -> int)
    requires SortedBy(rest, key) && AtLeast(rest, key, key(y))
    ensures SortedBy([y] + rest, key)
  {
    var r := [y] + rest;
    forall i, j | 0 <= i < j < |r|
      ensures key(r[i]) <= key(r[j])
    {
      assert r[j] == rest[j - 1];
      if i > 0 {
        assert r[i] == rest[i - 1];
      }
    }
  }

  /** A lower bound of the head and of the rest bounds the whole list. */
  lemma ConsAtLeast<T>(y: T, rest: seq<T>, key: T -> int, b: int)
    requires b <= key(y) && AtLeast(rest, key, b)
    ensures AtLeast([y] + rest, key, b)
  {
    var r := [y] + rest;
    forall i | 0 < i < |r|
      ensures b <= key(r[i])
    {
      assert r[i] == rest[i - 1];
    }
  }

  /** Insert `x` before the first element whose key is not smaller. */
  function InsertBy<T>(x: T, xs: seq<T>, key: T -> int): (r: seq<T>)
    ensures multiset(r) == multiset(xs) + multiset{x}
  {
    if |xs| == 0 || key(x) <= key(xs[0]) then [x] + xs
    else
      assert xs == [xs[0]] + xs[1..];
      [xs[0]] + InsertBy(x, xs[1..], key)
  }

  /** A bound below `x` and below all of `xs` stays below the insertion. */
  lemma {:induction false} InsertByAtLeast<T>(x: T, xs: seq<T>, key: T -> int, b: int)
    requires AtLeast(xs, key, b) && b <= key(x)
    ensures AtLeast(InsertBy(x, xs, key), key, b)
  {
    if |xs| == 0 || key(x) <= key(xs[0]) {
      ConsAtLeast(x, xs, key, b);
    } else {
      InsertByAtLeast(x, xs[1..], key, b);
      ConsAtLeast(xs[0], InsertBy(x, xs[1..], key), key, b);
    }
  }

  /** Insertion keeps a sorted list sorted. */
  lemma {:induction false} InsertBySorted<T>(x: T, xs: seq<T>, key: T -> int)
    requires SortedBy(xs, key)
    ensures SortedBy(InsertBy(x, xs, key), key)
  {
    if |xs| == 0 || key(x) <= key(xs[0]) {
      assert AtLeast(xs, key, key(x));
      ConsSorted(x, xs, key);
    } else {
      InsertBySorted(x, xs[1..], key);
      assert AtLeast(xs[1..], key, key(xs[0]));
      InsertByAtLeast(x, xs[1..], key, key(xs[0]));
      ConsSorted(xs[0], InsertBy(x, xs[1..], key), key);
    }
  }

  /** Python's stable `sorted` with the given key. */
  function SortBy<T>(xs: seq<T>, key: T -> int): (r: seq<T>)
    ensures multiset(r) == multiset(xs)
    ensures SortedBy(r, key)
  {
    if |xs| == 0 then []
    else
      assert xs == [xs[0]] + xs[1..];
      InsertBySorted(xs[0], SortBy(xs[1..], key), key);
      InsertBy(xs[0], SortBy(xs[1..], key), key)
  }

  /** Sorting a list that is already in order changes nothing. */
  lemma {:induction false} SortBySorted<T>(xs: seq<T>, key: T -> int)
    requires SortedBy(xs, key)
    ensures SortBy(xs, key) == xs
  {
    if |xs| > 0 {
      SortBySorted(xs[1..], key);
      assert SortBy(xs[1..], key) == xs[1..];
      if |xs| > 1 {
        assert key(xs[0]) <= key(xs[1]);
      }
    }
  }

  /** Every element of the sorted list comes from the input. */
  lemma SortByElement<T>(xs: seq<T>, key: T -> int, k: nat)
    requires k < |SortBy(xs, key)|
    ensures exists j :: 0 <= j < |xs| && xs[j] == SortBy(xs, key)[k]
  {
    var ys := SortBy(xs, key);
    assert ys[k] in multiset(ys);
    assert ys[k] in multiset(xs);
  }

  /** The elements of `xs` whose key is `v`, in their order in `xs`. */
  function WithKey<T>(xs: seq<T>, key: T -> int, v: int): seq<T> {
    if |xs| == 0 then []
    else (if key(xs[0]) == v then [xs[0]] else []) + WithKey(xs[1..], key, v)
  }

  /** Inserting `x` puts it in front of every element of the same key. */
  lemma {:induction false} InsertByWithKey<T>(x: T, xs: seq<T>, key: T -> int, v: int)
    ensures WithKey(InsertBy(x, xs, key), key, v) == (if key(x) == v then [x] else []) + WithKey(xs, key, v)
  {
    if |xs| == 0 || key(x) <= key(xs[0]) {
      assert ([x] + xs)[1..] == xs;
    } else {
      InsertByWithKey(x, xs[1..], key, v);
      var ys := [xs[0]] + InsertBy(x, xs[1..], key);
      assert ys[1..] == InsertBy(x, xs[1..], key);
    }
  }

  /** `sorted` is stable: the elements of any one key keep their input order. */
  lemma {:induction false} SortByStable<T>(xs: seq<T>, key: T -> int, v: int)
    ensures WithKey(SortBy(xs, key), key, v) == WithKey(xs, key, v)
  {
    if |xs| > 0 {
      SortByStable(xs[1..], key, v);
      InsertByWithKey(xs[0], SortBy(xs[1..], key), key, v);
    }
  }

  function PitchRangeKey(r: Range<Pitch>): int {
    NumLexOrd(r.start)
  }

  function IntervalRangeKey(r: Range<Interval>): int {
    IntervalLexOrd(r.start)
  }

  // ---------------------------------------------------------------- range lists

  /** Consecutive ranges may touch but not overlap. */
  predicate Touching<E>(rs: seq<Range<E>>, key: E -> int) {
    forall i :: 0 <= i < |rs| - 1 ==> key(rs[i].end) <= key(rs[i + 1].start)
  }

  /** The check loop of both constructors. */
  method CheckTouching<E>(rs: seq<Range<E>>, key: E -> int) returns (ok: bool)
    ensures ok <==> Touching(rs, key)
  {
    if |rs| == 0 {
      return true;
    }
    var i := 0;
    while i < |rs| - 1
      invariant 0 <= i <= |rs| - 1
      invariant forall k :: 0 <= k < i ==> key(rs[k].end) <= key(rs[k + 1].start)
    {
      if key(rs[i].end) > key(rs[i + 1].start) {
        return false;
      }
      i := i + 1;
    }
    return true;
  }

  /** Touching ranges whose starts do not exceed their ends form a chain:
      every range ends no later than any later range starts. */
  lemma {:induction false} TouchingChain<E>(rs: seq<Range<E>>, key: E -> int, i: nat, j: nat)
    requires Touching(rs, key)
    requires forall k :: 0 <= k < |rs| ==> key(rs[k].start) <= key(rs[k].end)
    requires i < j < |rs|
    ensures key(rs[i].end) <= key(rs[j].start)
    decreases j - i
  {
    if i + 1 < j {
      TouchingChain(rs, key, i + 1, j);
    }
  }

  // ---------------------------------------------------------------- instruments

  /** The default transposition, `Interval.from_str("1")`. */
  const Unison := Interval(1, false, Perfect)

  lemma UnisonIsDefault()
    ensures IntervalFromString("1") == Ok(Unison)
    ensures ToHalftones(Unison) == 0
    ensures Valid(Unison)
  {
    UnisonText();
    ValidIff(Unison);
  }

  datatype Instrument = Instrument(name: string, ranges: seq<Range<Pitch>>, transposition: Interval, notes: string)

  /** `Instrument(name, ranges, transposition, notes)`: ranges sorted by
      start; no transposition means unison and no notes the empty text. */
  method NewInstrument(name: string, ranges: seq<Range<Pitch>>, transposition: Option<Interval>, notes: Option<string>)
    returns (r: Result<Instrument>)
    ensures r.Ok? <==> Touching(SortBy(ranges, PitchRangeKey), NumLexOrd)
    ensures r.Ok? ==> r.value == Instrument(name, SortBy(ranges, PitchRangeKey), transposition.GetOr(Unison), notes.GetOr(""))
    ensures r.Err? ==> r.error == AssertionError
  {
    var sorted := SortBy(ranges, PitchRangeKey);
    var ok := CheckTouching(sorted, NumLexOrd);
    if !ok {
      return Err(AssertionError);
    }
    return Ok(Instrument(name, sorted, transposition.GetOr(Unison), notes.GetOr("")));
  }

  /** The instruments `NewInstrument` builds from valid ranges and a valid
      transposition. */
  predicate GoodInstrument(inst: Instrument) {
    && Valid(inst.transposition)
    && (forall k :: 0 <= k < |inst.ranges| ==> ValidAbsolute(inst.ranges[k]))
    && SortedBy(inst.ranges, PitchRangeKey)
    && Touching(inst.ranges, NumLexOrd)
  }

  lemma NewInstrumentGood(name: string, ranges: seq<Range<Pitch>>, transposition: Option<Interval>, notes: Option<string>, inst: Instrument)
    requires forall k :: 0 <= k < |ranges| ==> ValidAbsolute(ranges[k])
    requires transposition.Some? ==> Valid(transposition.value)
    requires Touching(SortBy(ranges, PitchRangeKey), NumLexOrd)
    requires inst == Instrument(name, SortBy(ranges, PitchRangeKey), transposition.GetOr(Unison), notes.GetOr(""))
    ensures GoodInstrument(inst)
  {
    UnisonIsDefault();
    var sorted := SortBy(ranges, PitchRangeKey);
    forall k | 0 <= k < |sorted|
      ensures ValidAbsolute(sorted[k])
    {
      SortByElement(ranges, PitchRangeKey, k);
    }
  }

  /** `min_sounding_pitch`: the lowest start, transposed; IndexError
      without ranges. */
  function MinSoundingPitch(inst: Instrument): (r: Result<Pitch>)
    requires Fits(inst.transposition.number, inst.transposition.modifier)
    ensures r.Ok? <==> |inst.ranges| > 0
    ensures r.Err? ==> r.error == IndexError
    ensures r.Ok? ==> MidiPitch(r.value) == MidiPitch(inst.ranges[0].start) + ToHalftones(inst.transposition)
  {
    if |inst.ranges| == 0 then Err(IndexError) else Ok(Transposed(inst.ranges[0].start, inst.transposition))
  }

  /** `max_sounding_pitch`: the highest end, transposed. */
  function MaxSoundingPitch(inst: Instrument): (r: Result<Pitch>)
    requires Fits(inst.transposition.number, inst.transposition.modifier)
    ensures r.Ok? <==> |inst.ranges| > 0
    ensures r.Err? ==> r.error == IndexError
    ensures r.Ok? ==> MidiPitch(r.value) == MidiPitch(inst.ranges[|inst.ranges| - 1].end) + ToHalftones(inst.transposition)
  {
    if |inst.ranges| == 0 then Err(IndexError)
    else Ok(Transposed(inst.ranges[|inst.ranges| - 1].end, inst.transposition))
  }

  /** In a constructed instrument the first start is its lowest written
      pitch and the last end its highest, so the sounding minimum does not
      sort above the sounding maximum (when both are spelled on their
      target positions). */
  lemma MinNotAboveMax(inst: Instrument)
    requires GoodInstrument(inst) && |inst.ranges| > 0
    requires -2 <= NeededShift(inst.ranges[0].start, inst.transposition) <= 2
    requires -2 <= NeededShift(inst.ranges[|inst.ranges| - 1].end, inst.transposition) <= 2
    ensures NumLexOrd(MinSoundingPitch(inst).value) <= NumLexOrd(MaxSoundingPitch(inst).value)
  {
    ValidIff(inst.transposition);
    var rs := inst.ranges;
    var last := |rs| - 1;
    if last > 0 {
      TouchingChain(rs, NumLexOrd, 0, last);
    }
    assert NumLexOrd(rs[0].start) <= NumLexOrd(rs[last].end);
    TransposePreservesOrder(rs[0].start, rs[last].end, inst.transposition);
  }

  /** `get_sounding_pitch_ranges`: every range transposed endpoint-wise. */
  method SoundingRanges(inst: Instrument) returns (r: Result<seq<Range<Pitch>>>)
    requires Fits(inst.transposition.number, inst.transposition.modifier)
    ensures r.Ok? <==> forall k :: 0 <= k < |inst.ranges| ==> TransposedRange(inst.ranges[k], inst.transposition).Ok?
    ensures r.Ok? ==> |r.value| == |inst.ranges|
    ensures r.Ok? ==> forall k :: 0 <= k < |inst.ranges| ==>
                        r.value[k] == TransposedRange(inst.ranges[k], inst.transposition).value
    ensures r.Err? ==> r.error == AssertionError
  {
    var t := inst.transposition;
    var out: seq<Range<Pitch>> := [];
    for k := 0 to |inst.ranges|
      invariant ShiftedUpTo(inst.ranges, t, out, k)
    {
      var next := TransposedRange(inst.ranges[k], t);
      if next.Err? {
        return Err(next.error);
      }
      ShiftedAppend(inst.ranges, t, out, k, next.value);
      out := out + [next.value];
    }
    return Ok(out);
  }

  /** Every range of the instrument survives transposition. */
  predicate AllTranspose(inst: Instrument)
    requires Fits(inst.transposition.number, inst.transposition.modifier)
  {
    forall k :: 0 <= k < |inst.ranges| ==> TransposedRange(inst.ranges[k], inst.transposition).Ok?
  }

  /** The list `get_sounding_pitch_ranges` returns when every range
      survives transposition. */
  function SoundingOf(inst: Instrument): (rs: seq<Range<Pitch>>)
    requires Fits(inst.transposition.number, inst.transposition.modifier) && AllTranspose(inst)
    ensures |rs| == |inst.ranges|
    ensures forall k :: 0 <= k < |rs| ==> TransposedRange(inst.ranges[k], inst.transposition) == Ok(rs[k])
  {
    seq(|inst.ranges|, k requires 0 <= k < |inst.ranges| => TransposedRange(inst.ranges[k], inst.transposition).value)
  }

  /** `out` holds the first `n` ranges of `rs`, transposed by `t`. */
  predicate ShiftedUpTo(rs: seq<Range<Pitch>>, t: Interval, out: seq<Range<Pitch>>, n: nat)
    requires Fits(t.number, t.modifier)
  {
    && n <= |rs| && |out| == n
    && forall j :: 0 <= j < n ==> TransposedRange(rs[j], t) == Ok(out[j])
  }

  lemma ShiftedAppend(rs: seq<Range<Pitch>>, t: Interval, out: seq<Range<Pitch>>, n: nat, next: Range<Pitch>)
    requires Fits(t.number, t.modifier)
    requires ShiftedUpTo(rs, t, out, n) && n < |rs| && TransposedRange(rs[n], t) == Ok(next)
    ensures ShiftedUpTo(rs, t, out + [next], n + 1)
  {
    var longer := out + [next];
    assert forall j :: 0 <= j < n ==> longer[j] == out[j];
    assert longer[n] == next;
  }

  /** Sounding ranges keep descriptions and preference and move every
      endpoint by the transposition's semitones; spelled on their target
      positions they always succeed. */
  lemma SoundingRangesFacts(inst: Instrument, k: nat)
    requires Fits(inst.transposition.number, inst.transposition.modifier)
    requires k < |inst.ranges| && ValidAbsolute(inst.ranges[k])
    requires -2 <= NeededShift(inst.ranges[k].start, inst.transposition) <= 2
    requires -2 <= NeededShift(inst.ranges[k].end, inst.transposition) <= 2
    ensures var t := TransposedRange(inst.ranges[k], inst.transposition);
            && t.Ok?
            && t.value.descr == inst.ranges[k].descr && t.value.preferred == inst.ranges[k].preferred
            && MidiPitch(t.value.start) == MidiPitch(inst.ranges[k].start) + ToHalftones(inst.transposition)
            && StaffPosition(t.value.end) == TargetPosition(inst.ranges[k].end, inst.transposition)
  {
    TransposedRangeSucceeds(inst.ranges[k], inst.transposition);
  }

  // ---------------------------------------------------------------- stringed instruments

  datatype StringedInst = StringedInst(
    name: string, ranges: seq<Range<Interval>>, transposition: Interval, notes: string, openStrings: seq<Pitch>)

  /** `StringedInst(...)`: ranges sorted by start, open strings sorted by
      pitch, then the touching check. */
  method NewStringedInst(name: string, ranges: seq<Range<Interval>>, openStrings: seq<Pitch>,
                         transposition: Option<Interval>, notes: Option<string>)
    returns (r: Result<StringedInst>)
    ensures r.Ok? <==> Touching(SortBy(ranges, IntervalRangeKey), IntervalLexOrd)
    ensures r.Ok? ==> r.value == StringedInst(name, SortBy(ranges, IntervalRangeKey), transposition.GetOr(Unison),
                                              notes.GetOr(""), SortBy(openStrings, NumLexOrd))
    ensures r.Err? ==> r.error == AssertionError
  {
    var sorted := SortBy(ranges, IntervalRangeKey);
    var t := transposition.GetOr(Unison);
    var n := notes.GetOr("");
    var strings := SortBy(openStrings, NumLexOrd);
    var ok := CheckTouching(sorted, IntervalLexOrd);
    if !ok {
      return Err(AssertionError);
    }
    return Ok(StringedInst(name, sorted, t, n, strings));
  }

  /** Every interval of the instrument can be measured in semitones. */
  predicate IntervalsFit(inst: StringedInst) {
    && Fits(inst.transposition.number, inst.transposition.modifier)
    && forall k :: 0 <= k < |inst.ranges| ==>
         Fits(inst.ranges[k].start.number, inst.ranges[k].start.modifier)
         && Fits(inst.ranges[k].end.number, inst.ranges[k].end.modifier)
  }

  /** `StringedInst.min_sounding_pitch`: the lowest open string moved by the
      first range's start and by the transposition. */
  function MinStringedPitch(inst: StringedInst): (r: Result<Pitch>)
    requires IntervalsFit(inst)
    ensures r.Ok? <==> |inst.openStrings| > 0 && |inst.ranges| > 0
    ensures r.Err? ==> r.error == IndexError
    ensures r.Ok? ==> MidiPitch(r.value) == MidiPitch(inst.openStrings[0])
                        + ToHalftones(inst.ranges[0].start) + ToHalftones(inst.transposition)
  {
    if |inst.openStrings| == 0 || |inst.ranges| == 0 then Err(IndexError)
    else Ok(Transposed(Transposed(inst.openStrings[0], inst.ranges[0].start), inst.transposition))
  }

  /** `StringedInst.max_sounding_pitch`: the highest open string moved by
      the last range's end and by the transposition. */
  function MaxStringedPitch(inst: StringedInst): (r: Result<Pitch>)
    requires IntervalsFit(inst)
    ensures r.Ok? <==> |inst.openStrings| > 0 && |inst.ranges| > 0
    ensures r.Err? ==> r.error == IndexError
    ensures r.Ok? ==> MidiPitch(r.value) == MidiPitch(inst.openStrings[|inst.openStrings| - 1])
                        + ToHalftones(inst.ranges[|inst.ranges| - 1].end) + ToHalftones(inst.transposition)
  {
    if |inst.openStrings| == 0 || |inst.ranges| == 0 then Err(IndexError)
    else
      Ok(Transposed(Transposed(inst.openStrings[|inst.openStrings| - 1], inst.ranges[|inst.ranges| - 1].end),
                    inst.transposition))
  }

  /** The notes of every string at the chart's heads (`string_notes`). */
  function StringNotes(openStrings: seq<Pitch>, heads: seq<Interval>, t: Interval): (rows: seq<seq<Pitch>>)
    requires Fits(t.number, t.modifier)
    requires forall n :: 0 <= n < |heads| ==> Fits(heads[n].number, heads[n].modifier)
    ensures |rows| == |openStrings| && Rectangular(rows, |heads|)
    ensures forall s, n :: 0 <= s < |openStrings| && 0 <= n < |heads| ==>
              MidiPitch(rows[s][n]) == MidiPitch(openStrings[s]) + ToHalftones(heads[n]) + ToHalftones(t)
  {
    seq(|openStrings|, s requires 0 <= s < |openStrings| =>
      seq(|heads|, n requires 0 <= n < |heads| => Transposed(Transposed(openStrings[s], heads[n]), t)))
  }

  /** The glyph computation of `StringedInst.generate_s_pitch_ranges`:
      merge the range boundaries into heads, place them on every string and
      choose the accidentals. */
  method StringedChartGlyphs(inst: StringedInst) returns (heads: seq<Interval>, full: seq<bool>, glyphs: seq<seq<Glyph>>)
    requires IntervalsFit(inst)
    ensures |heads| == |full| == 2 * |inst.ranges| - MergedCount(inst.ranges, |inst.ranges|)
    ensures HeadsOf(inst.ranges, heads, full)
    ensures forall n :: 0 <= n < |heads| ==> Fits(heads[n].number, heads[n].modifier)
    ensures var strings := StringNotes(inst.openStrings, heads, inst.transposition);
            glyphs == GlyphRows(strings, |strings|, |heads|)
  {
    heads, full := CalcNoteHeads(inst.ranges);
    forall n | 0 <= n < |heads|
      ensures Fits(heads[n].number, heads[n].modifier)
    {
      var i :| 0 <= i < |inst.ranges| && (heads[n] == inst.ranges[i].start || heads[n] == inst.ranges[i].end);
    }
    var strings := StringNotes(inst.openStrings, heads, inst.transposition);
    glyphs := StringAccidentals(strings, |heads|);
  }

  /** The glyph computation of `Instrument.generate_s_pitch_ranges`. */
  method ChartGlyphs(inst: Instrument) returns (r: Result<(seq<Pitch>, seq<bool>, seq<Glyph>)>)
    requires Fits(inst.transposition.number, inst.transposition.modifier)
    ensures r.Ok? <==> AllTranspose(inst)
    ensures r.Err? ==> r.error == AssertionError
    ensures r.Ok? ==> HeadsOf(SoundingOf(inst), r.value.0, r.value.1)
    ensures r.Ok? ==> |r.value.0| == |r.value.1| == |r.value.2|
    ensures r.Ok? ==> forall i :: 0 <= i < |r.value.0| ==> r.value.2[i] == GlyphAt(r.value.0, i)
  {
    var sounding :- SoundingRanges(inst);
    assert sounding == SoundingOf(inst) by {
      var expected := SoundingOf(inst);
      assert |sounding| == |expected|;
      assert forall k :: 0 <= k < |sounding| ==> sounding[k] == expected[k];
    }
    var pitches, full := CalcNoteHeads(sounding);
    var glyphs := FindAccidentals(pitches);
    return Ok((pitches, full, glyphs));
  }

  // ---------------------------------------------------------------- reading fields

  /** Parse every line in order; the first failure is the result. */
  function ParseEach<T>(lines: seq<string>, parse: string -> Result<T>): (r: Result<seq<T>>)
    ensures r.Ok? <==> forall k :: 0 <= k < |lines| ==> parse(lines[k]).Ok?
    ensures r.Ok? ==> |r.value| == |lines| && forall k :: 0 <= k < |lines| ==> parse(lines[k]) == Ok(r.value[k])
    ensures r.Err? ==> exists k :: 0 <= k < |lines| && (forall j :: 0 <= j < k ==> parse(lines[j]).Ok?)
                                   && parse(lines[k]) == Err(r.error)
  {
    if |lines| == 0 then Ok([])
    else
      match parse(lines[0])
      case Err(e) => Err(e)
      case Ok(x) =>
        var rest := ParseEach(lines[1..], parse);
        assert forall k :: 1 <= k < |lines| ==> lines[k] == lines[1..][k - 1];
        match rest
        case Err(e) => Err(e)
        case Ok(xs) => Ok([x] + xs)
  }

  /** The transposition field: absent means none; otherwise it must hold
      exactly one interval (ValueError). */
  function TranspositionField(fields: map<string, seq<string>>): (r: Result<Option<Interval>>)
    ensures r.Ok? && r.value.Some? ==> "transposition" in fields && |fields["transposition"]| == 1
                                       && IntervalFromString(fields["transposition"][0]) == Ok(r.value.value)
    ensures r.Ok? && r.value.None? <==> "transposition" !in fields
    ensures "transposition" in fields && |fields["transposition"]| != 1 ==> r == Err(ValueError)
    ensures "transposition" in fields && |fields["transposition"]| == 1 ==>
              var read := IntervalFromString(fields["transposition"][0]);
              (r.Ok? <==> read.Ok?) && (r.Err? ==> r.error == read.error)
  {
    if "transposition" in fields then
      if |fields["transposition"]| != 1 then Err(ValueError)
      else
        var t :- IntervalFromString(fields["transposition"][0]);
        Ok(Some(t))
    else Ok(None)
  }

  /** The notes field, lines joined by newlines. */
  function NotesField(fields: map<string, seq<string>>): Option<string> {
    if "notes" in fields then Some(Join("\n", fields["notes"])) else None
  }

  /** `fields[key]` read line by line: KeyError when the field is missing,
      otherwise the first line that does not parse decides. */
  function LinesField<T>(fields: map<string, seq<string>>, key: string, parse: string -> Result<T>): (r: Result<seq<T>>)
    ensures key !in fields ==> r == Err(KeyError)
    ensures key in fields ==> r == ParseEach(fields[key], parse)
  {
    if key in fields then ParseEach(fields[key], parse) else Err(KeyError)
  }

  /** `Instrument.from_strs`: ranges are read first (KeyError without
      them), then the transposition; the constructor gets the ranges in
      file order, the transposition and the notes. */
  method InstrumentFromStrs(name: string, fields: map<string, seq<string>>) returns (r: Result<Instrument>)
    ensures "ranges" !in fields ==> r == Err(KeyError)
    ensures ("ranges" in fields && ParseEach(fields["ranges"], AbsoluteRangeFromString).Ok?
             && "transposition" in fields && |fields["transposition"]| != 1) ==> r == Err(ValueError)
    ensures var ranges := LinesField(fields, "ranges", AbsoluteRangeFromString);
            ranges.Err? ==> r == Err(ranges.error)
    ensures var ranges := LinesField(fields, "ranges", AbsoluteRangeFromString);
            ranges.Ok? && TranspositionField(fields).Err? ==> r == Err(TranspositionField(fields).error)
    ensures var ranges := LinesField(fields, "ranges", AbsoluteRangeFromString);
            r.Ok? <==> ranges.Ok? && TranspositionField(fields).Ok?
                       && Touching(SortBy(ranges.value, PitchRangeKey), NumLexOrd)
    ensures var ranges := LinesField(fields, "ranges", AbsoluteRangeFromString);
            (ranges.Ok? && TranspositionField(fields).Ok? && !Touching(SortBy(ranges.value, PitchRangeKey), NumLexOrd))
              ==> r == Err(AssertionError)
    ensures var ranges := LinesField(fields, "ranges", AbsoluteRangeFromString);
            r.Ok? ==> r.value == Instrument(name, SortBy(ranges.value, PitchRangeKey),
                                           TranspositionField(fields).value.GetOr(Unison), NotesField(fields).GetOr(""))
    ensures r.Ok? ==> "ranges" in fields && ("transposition" in fields ==> |fields["transposition"]| == 1)
    ensures r.Ok? ==> GoodInstrument(r.value) && r.value.name == name
    ensures r.Ok? ==> ParseEach(fields["ranges"], AbsoluteRangeFromString).Ok?
                      && multiset(r.value.ranges) == multiset(ParseEach(fields["ranges"], AbsoluteRangeFromString).value)
  {
    var ranges :- LinesField(fields, "ranges", AbsoluteRangeFromString);
    var transposition :- TranspositionField(fields);
    r := NewInstrument(name, ranges, transposition, NotesField(fields));
    if r.Ok? {
      NewInstrumentGood(name, ranges, transposition, NotesField(fields), r.value);
    }
  }

  /** `StringedInst.from_strs`: the transposition is checked first, then
      the ranges and the open strings are read (KeyError when missing); the
      constructor gets both lists in file order. */
  method StringedInstFromStrs(name: string, fields: map<string, seq<string>>) returns (r: Result<StringedInst>)
    ensures "transposition" in fields && |fields["transposition"]| != 1 ==> r == Err(ValueError)
    ensures TranspositionField(fields).Ok? && "ranges" !in fields ==> r == Err(KeyError)
    ensures (TranspositionField(fields).Ok? && "ranges" in fields
             && ParseEach(fields["ranges"], RelativeRangeFromString).Ok? && "open strings" !in fields) ==> r == Err(KeyError)
    ensures TranspositionField(fields).Err? ==> r == Err(TranspositionField(fields).error)
    ensures var ranges := LinesField(fields, "ranges", RelativeRangeFromString);
            TranspositionField(fields).Ok? && ranges.Err? ==> r == Err(ranges.error)
    ensures var ranges := LinesField(fields, "ranges", RelativeRangeFromString);
            var strings := LinesField(fields, "open strings", PitchFromString);
            TranspositionField(fields).Ok? && ranges.Ok? && strings.Err? ==> r == Err(strings.error)
    ensures var ranges := LinesField(fields, "ranges", RelativeRangeFromString);
            var strings := LinesField(fields, "open strings", PitchFromString);
            r.Ok? <==> TranspositionField(fields).Ok? && ranges.Ok? && strings.Ok?
                       && Touching(SortBy(ranges.value, IntervalRangeKey), IntervalLexOrd)
    ensures var ranges := LinesField(fields, "ranges", RelativeRangeFromString);
            var strings := LinesField(fields, "open strings", PitchFromString);
            r.Ok? ==> r.value == StringedInst(name, SortBy(ranges.value, IntervalRangeKey),
                                              TranspositionField(fields).value.GetOr(Unison), NotesField(fields).GetOr(""),
                                              SortBy(strings.value, NumLexOrd))
    ensures var ranges := LinesField(fields, "ranges", RelativeRangeFromString);
            var strings := LinesField(fields, "open strings", PitchFromString);
            (TranspositionField(fields).Ok? && ranges.Ok? && strings.Ok?
             && !Touching(SortBy(ranges.value, IntervalRangeKey), IntervalLexOrd)) ==> r == Err(AssertionError)
    ensures r.Ok? ==> "ranges" in fields && "open strings" in fields
    ensures r.Ok? ==> IntervalsFit(r.value) && r.value.name == name
    ensures r.Ok? ==> SortedBy(r.value.openStrings, NumLexOrd)
                      && ParseEach(fields["open strings"], PitchFromString).Ok?
                      && multiset(r.value.openStrings) == multiset(ParseEach(fields["open strings"], PitchFromString).value)
  {
    var transposition :- TranspositionField(fields);
    var ranges :- LinesField(fields, "ranges", RelativeRangeFromString);
    var openStrings :- LinesField(fields, "open strings", PitchFromString);
    r := NewStringedInst(name, ranges, openStrings, transposition, NotesField(fields));
    if r.Ok? {
      StringedIntervalsFit(ranges, transposition, r.value);
    }
  }

  lemma StringedIntervalsFit(ranges: seq<Range<Interval>>, transposition: Option<Interval>, inst: StringedInst)
    requires forall k :: 0 <= k < |ranges| ==> ValidRelative(ranges[k])
    requires transposition.Some? ==> Valid(transposition.value)
    requires inst.ranges == SortBy(ranges, IntervalRangeKey) && inst.transposition == transposition.GetOr(Unison)
    ensures IntervalsFit(inst)
  {
    TranspositionFits(transposition);
    RangesFit(ranges, inst.ranges);
  }

  /** A reordering of valid interval ranges has endpoints that take their
      qualities. */
  lemma RangesFit(ranges: seq<Range<Interval>>, sorted: seq<Range<Interval>>)
    requires forall k :: 0 <= k < |ranges| ==> ValidRelative(ranges[k])
    requires multiset(sorted) == multiset(ranges)
    ensures forall k :: 0 <= k < |sorted| ==>
              Fits(sorted[k].start.number, sorted[k].start.modifier) && Fits(sorted[k].end.number, sorted[k].end.modifier)
  {
    forall k | 0 <= k < |sorted|
      ensures Fits(sorted[k].start.number, sorted[k].start.modifier) && Fits(sorted[k].end.number, sorted[k].end.modifier)
    {
      assert sorted[k] in multiset(ranges);
      var j :| 0 <= j < |ranges| && ranges[j] == sorted[k];
      RelativeFits(ranges[j]);
    }
  }

  /** A given transposition is valid, and the default is the unison, so the
      transposition's degree takes its quality. */
  lemma TranspositionFits(transposition: Option<Interval>)
    requires transposition.Some? ==> Valid(transposition.value)
    ensures Fits(transposition.GetOr(Unison).number, transposition.GetOr(Unison).modifier)
  {
    if transposition.Some? {
      ValidIff(transposition.value);
    } else {
      assert NormalizedNumber(1) == 1;
    }
  }

  /** The endpoints of a valid interval range take their qualities. */
  lemma RelativeFits(r: Range<Interval>)
    requires ValidRelative(r)
    ensures Fits(r.start.number, r.start.modifier) && Fits(r.end.number, r.end.modifier)
  {
    ValidIff(r.start);
    ValidIff(r.end);
  }
}
