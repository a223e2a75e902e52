/** The first version of the music model (music/__init__.py): intervals
    without the direction check, pitches whose text form always spells the
    accidental, `PartialRange` and the instrument constructor. The semitone
    counts, staff positions and MIDI numbers are the ones of the library
    version and are shared with it; this module states where the two
    versions part. */
module Prototype {
  import opened Wrappers
  import opened Text
  import opened Consts
  import opened Intervals
  import opened Pitches
  import opened Ranges
  import opened Instruments

  // ---------------------------------------------------------------- intervals

  /** The intervals the first constructor accepts. */
  predicate ProtoValid(i: Interval) {
    i.number >= 1 && Fits(i.number, i.modifier)
  }

  /** `Interval(number, down, modifier)`, first version: a number of at least
      one and a quality the degree can take, checked by assertions; the
      direction is stored as given. */
  function ProtoNewInterval(number: int, down: bool, modifier: Option<Modifier>): (r: Result<Interval>)
    ensures r.Ok? <==> number >= 1 && Fits(number, modifier.GetOr(Perfect))
    ensures r.Ok? ==> r.value == Interval(number, down, modifier.GetOr(Perfect)) && ProtoValid(r.value)
    ensures r.Err? ==> r.error == AssertionError
  {
    var m := modifier.GetOr(Perfect);
    if number < 1 then Err(AssertionError)
    else if PerfectFamily(number) && (m == Major || m == Minor) then Err(AssertionError)
    else if !PerfectFamily(number) && m == Perfect then Err(AssertionError)
    else Ok(Interval(number, down, m))
  }

  /** Every interval the library constructor builds, the first one builds
      too; the first one also takes a diminished unison and keeps a downward
      plain unison downward, which the library version refuses or resets. */
  lemma ProtoIntervalAcceptsMore(number: int, down: bool, modifier: Option<Modifier>)
    ensures NewInterval(number, down, modifier).Ok? ==> ProtoNewInterval(number, down, modifier).Ok?
    ensures NewInterval(number, down, modifier).Ok? && !(number == 1 && modifier.GetOr(Perfect) == Perfect) ==>
              ProtoNewInterval(number, down, modifier) == NewInterval(number, down, modifier)
    ensures ProtoNewInterval(1, false, Some(Diminished)) == Ok(Interval(1, false, Diminished))
    ensures NewInterval(1, false, Some(Diminished)).Err?
    ensures ProtoNewInterval(1, true, None) == Ok(Interval(1, true, Perfect))
    ensures NewInterval(1, true, None) == Ok(Interval(1, false, Perfect))
  {
    NewIntervalOutcome(number, down, modifier);
    NewIntervalOutcome(1, false, Some(Diminished));
  }

  /** An "upward" diminished unison, which the first constructor lets
      through, lowers a pitch by a semitone. */
  lemma UpwardDiminishedUnisonGoesDown()
    ensures ProtoNewInterval(1, false, Some(Diminished)).Ok?
    ensures ToHalftones(ProtoNewInterval(1, false, Some(Diminished)).value) == -1
  {
  }

  /** `Interval.from_str`, first version: the same reading as the library's,
      into the first constructor. */
  function ProtoIntervalFromString(s: string): (r: Result<Interval>)
    ensures r.Ok? ==> ProtoValid(r.value)
  {
    var t :- ReadIntervalText(s);
    ProtoNewInterval(t.number, t.down, t.modifier)
  }

  /** Every interval the first constructor accepts reads back from the
      library's text form ("-" first). */
  lemma ProtoIntervalStringRoundTrip(i: Interval)
    requires ProtoValid(i)
    ensures ProtoIntervalFromString(IntervalToString(i)) == Ok(i)
  {
    ReadIntervalTextRoundTrip(i);
  }

  /** `repr(interval)`, first version: the modifier unless perfect, the
      number, and "-" AFTER the number when down. */
  function ProtoIntervalRepr(i: Interval): (r: string)
    ensures |r| > 0 && NoSpace(r)
    ensures i.number >= 0 ==> (r[|r| - 1] == '-' <==> i.down)
  {
    IntModifierTable();
    (if i.modifier == Perfect then "" else [ModifierChar(i.modifier)])
    + IntToString(i.number)
    + (if i.down then "-" else "")
  }

  /** The first text form reads back only for upward intervals: the
      trailing "-" of a downward one makes the number unreadable. */
  lemma ProtoReprReadsBackIffUp(i: Interval)
    requires ProtoValid(i)
    ensures !i.down ==> ProtoIntervalFromString(ProtoIntervalRepr(i)) == Ok(i)
    ensures i.down ==> ProtoIntervalFromString(ProtoIntervalRepr(i)) == Err(ValueError)
  {
    if !i.down {
      assert ProtoIntervalRepr(i) == IntervalToString(i);
      ProtoIntervalStringRoundTrip(i);
    } else {
      var s := ProtoIntervalRepr(i);
      var num := IntToString(i.number);
      assert IsDigit(num[0]);
      assert s[0] != '-' by {
        if i.modifier == Perfect { assert s[0] == num[0]; } else { assert s[0] == ModifierChar(i.modifier); }
      }
      var digits := if i.modifier == Perfect then s else s[1..];
      assert digits == num + "-" by {
        if i.modifier != Perfect { assert s == [ModifierChar(i.modifier)] + (num + "-"); }
      }
      assert ModifierOfChar(s[0]).Some? <==> i.modifier != Perfect by {
        if i.modifier == Perfect { assert s[0] == num[0]; }
      }
      assert digits[0] == num[0];
      assert digits[|digits| - 1] == '-';
      assert !AllDigits(digits);
    }
  }

  // ---------------------------------------------------------------- pitches

  /** `Pitch.from_str`, first version: the letter is checked by an assertion,
      and the second character decides: a digit starts the octave, anything
      else must be an accidental character. */
  function ProtoPitchFromString(s: string): (r: Result<Pitch>)
    ensures r.Ok? ==> |s| >= 2 && LetterChar(r.value.note) == s[0]
  {
    if |s| == 0 then Err(IndexError)
    else match LetterOfChar(s[0])
      case None => Err(AssertionError)
      case Some(l) =>
        NoteNamesAreAToG();
        if |s| < 2 then Err(IndexError)
        else if !IsDigit(s[1]) then
          match AccidentalOfChar(s[1])
          case None => Err(AssertionError)
          case Some(a) =>
            (match ParseInt(s[2..])
             case None => Err(ValueError)
             case Some(o) => Ok(Pitch(l, o, a)))
        else
          match ParseInt(s[1..])
          case None => Err(ValueError)
          case Some(o) => Ok(Pitch(l, o, Natural))
  }

  /** `str(pitch)`, first version: letter, accidental character (also "n"),
      octave; the accidental is always written. */
  function ProtoPitchToString(p: Pitch): (r: string)
    ensures |r| > 2 && r[0] == LetterChar(p.note) && AccidentalOfChar(r[1]) == Some(p.accidental)
    ensures r[2..] == IntToString(p.octave)
  {
    AccidentalTablesAgree();
    [LetterChar(p.note), AccidentalChar(p.accidental)] + IntToString(p.octave)
  }

  /** Every pitch reads back from the first text form. */
  lemma ProtoPitchStringRoundTrip(p: Pitch)
    ensures ProtoPitchFromString(ProtoPitchToString(p)) == Ok(p)
  {
    NoteNamesAreAToG();
    AccidentalTablesAgree();
    IntToStringRoundTrip(p.octave);
    var s := ProtoPitchToString(p);
    assert !IsDigit(s[1]);
    assert s[2..] == IntToString(p.octave);
  }

  /** The two text forms agree exactly on the pitches that carry a sharp or
      flat; a natural gains an "n" in the first one. */
  lemma ProtoPitchTextsAgreeIff(p: Pitch)
    ensures ProtoPitchToString(p) == PitchToString(p) <==> p.accidental != Natural
    ensures ProtoPitchToString(Pitch(E, 0, Natural)) == "En0"
    ensures PitchToString(Pitch(E, 0, Natural)) == "E0"
  {
    if p.accidental == Natural {
      assert |ProtoPitchToString(p)| == |PitchToString(p)| + 1;
    }
    assert IntToString(0) == "0";
  }

  /** The first reader takes the library's text form except for naturals
      below octave 0, whose "-" it takes for an accidental and rejects. */
  lemma ProtoReadsLibraryText(p: Pitch)
    ensures p.octave >= 0 || p.accidental != Natural ==> ProtoPitchFromString(PitchToString(p)) == Ok(p)
    ensures p.octave < 0 && p.accidental == Natural ==> ProtoPitchFromString(PitchToString(p)) == Err(AssertionError)
  {
    if p.accidental == Natural {
      ProtoReadsNaturalText(p);
    } else {
      ProtoPitchTextsAgreeIff(p);
      ProtoPitchStringRoundTrip(p);
    }
  }

  /** The natural case: the octave follows the letter directly. */
  lemma ProtoReadsNaturalText(p: Pitch)
    requires p.accidental == Natural
    ensures p.octave >= 0 ==> ProtoPitchFromString(PitchToString(p)) == Ok(p)
    ensures p.octave < 0 ==> ProtoPitchFromString(PitchToString(p)) == Err(AssertionError)
  {
    NoteNamesAreAToG();
    IntToStringRoundTrip(p.octave);
    var s := PitchToString(p);
    var num := IntToString(p.octave);
    assert s == [LetterChar(p.note)] + num;
    assert s[1..] == num;
    assert s[1] == num[0];
    if p.octave < 0 {
      assert AccidentalOfChar('-') == None;
    }
  }

  /** "C-1" is a pitch to the library's reader and an error to the first. */
  lemma NegativeOctaveNatural()
    ensures PitchFromString("C-1") == Ok(Pitch(C, -1, Natural))
    ensures ProtoPitchFromString("C-1") == Err(AssertionError)
  {
    assert PitchToString(Pitch(C, -1, Natural)) == "C-1" by {
      assert NatToString(1) == "1";
    }
    PitchStringRoundTrip(Pitch(C, -1, Natural));
    ProtoReadsLibraryText(Pitch(C, -1, Natural));
  }

  /** `from_midi_pitch`, first version: the table's spelling of the pitch
      class is formatted with the octave and read back, which fails for the
      naturals below MIDI number 12 (octave -1 and lower). */
  function ProtoFromMidi(m: int): (r: Result<Pitch>)
    ensures r.Ok? <==> m >= 12 || FromMidiPitch(m).accidental != Natural
    ensures r.Ok? ==> r.value == FromMidiPitch(m) && MidiPitch(r.value) == m
    ensures r.Err? ==> r.error == AssertionError
  {
    var p := FromMidiPitch(m);
    if p.accidental == Natural && p.octave < 0 then Err(AssertionError) else Ok(p)
  }

  /** `ProtoFromMidi` is what reading the formatted table spelling gives. */
  lemma ProtoFromMidiViaText(m: int)
    ensures ProtoPitchFromString(MidiPitchToNote[m % 12] + IntToString(m / 12 - 1)) == ProtoFromMidi(m)
  {
    MidiTableConsistent(m % 12);
    var (l, a) := ReadNoteName(MidiPitchToNote[m % 12]).value;
    assert PitchToString(Pitch(l, m / 12 - 1, a)) == MidiPitchToNote[m % 12] + IntToString(m / 12 - 1);
    ProtoReadsLibraryText(Pitch(l, m / 12 - 1, a));
  }

  /** The naturals of octave -1 cannot be built from their MIDI numbers. */
  lemma ProtoFromMidiNaturalFails(l: Letter)
    ensures ProtoFromMidi(NoteToMidiPitch(l)) == Err(AssertionError)
  {
    MidiRoundTripNatural(Pitch(l, -1, Natural));
  }

  /** Naturals from octave 0 up survive the trip through their MIDI number
      (the round trips of the first version's own checks). */
  lemma ProtoMidiRoundTripNatural(p: Pitch)
    requires p.accidental == Natural && p.octave >= 0
    ensures ProtoFromMidi(MidiPitch(p)) == Ok(p)
  {
    MidiRoundTripNatural(p);
  }

  /** `transposed`, first version: the same spelling rule as the library's,
      with the first `from_midi_pitch` as the fallback. */
  function ProtoTransposed(p: Pitch, i: Interval): (r: Result<Pitch>)
    requires Fits(i.number, i.modifier)
    ensures r.Ok? ==> r.value == TransposedAsWritten(p, i)
    ensures r.Err? ==> r.error == AssertionError
  {
    match PyAccidentalIndex(NeededShift(p, i) + 2)
    case Some(a) => Ok(FromStaffPosition(TargetPosition(p, i), a))
    case None => ProtoFromMidi(CorrectMidi(p, i))
  }

  /** Where an accidental of offset -2..2 spells the result, the first
      version succeeds and agrees with the corrected transposition, so the
      result sounds the right MIDI number. */
  lemma ProtoTransposedSpelled(p: Pitch, i: Interval)
    requires Fits(i.number, i.modifier)
    requires -2 <= NeededShift(p, i) <= 2
    ensures ProtoTransposed(p, i) == Ok(Transposed(p, i))
    ensures MidiPitch(ProtoTransposed(p, i).value) == MidiPitch(p) + ToHalftones(i)
  {
    AccidentalTablesAgree();
  }

  /** Whenever an accidental `a` spells the correct pitch on the target
      position, the first version writes exactly that accidental there. */
  lemma ProtoSpelledOn(p: Pitch, i: Interval, natural: Pitch, a: Accidental)
    requires Fits(i.number, i.modifier)
    requires StaffPosition(natural) == TargetPosition(p, i) && natural.accidental == Natural
    requires AccidentalMap(a) == MidiPitch(p) + ToHalftones(i) - MidiPitch(natural)
    ensures ProtoTransposed(p, i) == Ok(Pitch(natural.note, natural.octave, a))
  {
    assert NeededShift(p, i) == AccidentalMap(a) by {
      StaffPositionRoundTrip(natural, Natural);
      assert FromStaffPosition(TargetPosition(p, i), Natural) == natural;
    }
    assert -2 <= AccidentalMap(a) <= 2;
    ProtoTransposedSpelled(p, i);
    TransposedSpelledOn(p, i, natural, a);
  }

  /** Where no accidental index reaches the correct pitch and that pitch is
      a natural of octave -1, the first version fails. */
  lemma ProtoTransposedFails(p: Pitch, i: Interval, l: Letter)
    requires Fits(i.number, i.modifier)
    requires !(-7 <= NeededShift(p, i) <= 2)
    requires CorrectMidi(p, i) == NoteToMidiPitch(l)
    ensures ProtoTransposed(p, i) == Err(AssertionError)
  {
    ProtoFromMidiNaturalFails(l);
  }

  /** C double sharp -1 up an augmented second needs a triple sharp on D;
      it sounds MIDI 5, the natural F of octave -1. */
  lemma TripleSharpNeeded(p: Pitch, i: Interval)
    requires p == Pitch(C, -1, DoubleSharp) && i == Interval(2, false, Augmented)
    ensures Fits(i.number, i.modifier) && NeededShift(p, i) == 3 && CorrectMidi(p, i) == NoteToMidiPitch(F)
  {
    assert ToHalftones(i) == 3;
    assert MidiPitch(p) == 2;
    assert CorrectMidi(p, i) == 5;
    assert NoteToMidiPitch(F) == 5;
    var natural := Pitch(D, -1, Natural);
    assert StaffPosition(natural) == TargetPosition(p, i);
    StaffPositionRoundTrip(natural, Natural);
    assert FromStaffPosition(TargetPosition(p, i), Natural) == natural;
    assert MidiPitch(natural) == 2;
  }

  /** So the first version fails on it, where the corrected transposition
      spells F-1. */
  lemma ProtoTransposedFallbackFails(p: Pitch, i: Interval)
    requires p == Pitch(C, -1, DoubleSharp) && i == Interval(2, false, Augmented)
    ensures Fits(i.number, i.modifier) && ProtoTransposed(p, i) == Err(AssertionError)
  {
    TripleSharpNeeded(p, i);
    ProtoTransposedFails(p, i, F);
  }

  /** C0 up a major third prints as "En0" where "E0" is meant. */
  lemma ProtoMajorThirdPrintsNatural()
    ensures ProtoTransposed(Pitch(C, 0, Natural), Interval(3, false, Major)) == Ok(Pitch(E, 0, Natural))
    ensures ProtoPitchToString(Pitch(E, 0, Natural)) == "En0"
  {
    var p := Pitch(C, 0, Natural);
    var i := Interval(3, false, Major);
    assert ToHalftones(i) == 4;
    ProtoSpelledOn(p, i, Pitch(E, 0, Natural), Natural);
    ProtoPitchTextsAgreeIff(Pitch(E, 0, Natural));
  }

  // ---------------------------------------------------------------- ordering

  /** `ACCIDENTALS.index(accidental)`. */
  function AccidentalIndex(a: Accidental): (k: nat)
    ensures k < 5 && Accidentals[k] == AccidentalChar(a)
  {
    AccidentalTablesAgree();
    AccidentalMap(a) + 2
  }

  /** `Pitch.__lt__`: by staff position, then by accidental index; this is
      the order of the library's sort key. */
  predicate ProtoLess(p: Pitch, q: Pitch)
    ensures ProtoLess(p, q) <==> NumLexOrd(p) < NumLexOrd(q)
  {
    NumLexOrdIsLexicographic(p, q);
    if StaffPosition(p) == StaffPosition(q) then AccidentalIndex(p.accidental) < AccidentalIndex(q.accidental)
    else StaffPosition(p) < StaffPosition(q)
  }

  /** `p <= q` as `total_ordering` derives it from `<` and `==`. */
  predicate ProtoLessEq(p: Pitch, q: Pitch) {
    ProtoLess(p, q) || p == q
  }

  /** The first comparison is the order of the library's sort key. */
  lemma ProtoLessIsKeyOrder(p: Pitch, q: Pitch)
    ensures ProtoLess(p, q) <==> NumLexOrd(p) < NumLexOrd(q)
    ensures ProtoLessEq(p, q) <==> NumLexOrd(p) <= NumLexOrd(q)
  {
    NumLexOrdIsLexicographic(p, q);
  }

  /** `<` is a strict total order on pitches. */
  lemma ProtoLessStrictTotal(p: Pitch, q: Pitch, s: Pitch)
    ensures !ProtoLess(p, p)
    ensures ProtoLess(p, q) && ProtoLess(q, s) ==> ProtoLess(p, s)
    ensures p != q ==> ProtoLess(p, q) || ProtoLess(q, p)
    ensures !(ProtoLess(p, q) && ProtoLess(q, p))
  {
    ProtoLessIsKeyOrder(p, p);
    ProtoLessIsKeyOrder(p, q);
    ProtoLessIsKeyOrder(q, p);
    ProtoLessIsKeyOrder(q, s);
    ProtoLessIsKeyOrder(p, s);
  }

  // ---------------------------------------------------------------- partial ranges

  /** `PartialRange(start, end, descr, preferred)`: the start must not come
      after the end. */
  function NewPartialRange(start: Pitch, end: Pitch, descr: string, preferred: bool): (r: Result<Range<Pitch>>)
    ensures r.Ok? <==> ProtoLessEq(start, end)
    ensures r.Ok? ==> r.value == Range(start, end, descr, preferred)
    ensures r.Err? ==> r.error == AssertionError
  {
    if ProtoLessEq(start, end) then Ok(Range(start, end, descr, preferred)) else Err(AssertionError)
  }

  /** The first range constructor accepts exactly what the library's does. */
  lemma PartialRangeIsAbsoluteRange(start: Pitch, end: Pitch, descr: string, preferred: bool)
    ensures NewPartialRange(start, end, descr, preferred) == NewAbsoluteRange(start, end, descr, preferred)
  {
    ProtoLessIsKeyOrder(start, end);
  }

  /** `PartialRange.from_str`: the library's line format, with the first
      pitch reader. */
  function PartialRangeFromString(s: string): (r: Result<Range<Pitch>>)
    ensures r.Ok? ==> ValidAbsolute(r.value)
  {
    var line :- SplitRangeLine(s);
    var start :- ProtoPitchFromString(line.start);
    var end :- ProtoPitchFromString(line.end);
    PartialRangeIsAbsoluteRange(start, end, line.descr, line.preferred);
    NewPartialRange(start, end, line.descr, line.preferred)
  }

  /** `str(partial_range)`. */
  function PartialRangeToString(r: Range<Pitch>): string {
    RangeLineToString(ProtoPitchToString(r.start), ProtoPitchToString(r.end), r.descr, r.preferred)
  }

  lemma ProtoPitchTextIsAWord(p: Pitch)
    ensures |ProtoPitchToString(p)| > 0 && NoSpace(ProtoPitchToString(p)) && ProtoPitchToString(p)[0] != '!'
  {
    var s := ProtoPitchToString(p);
    var num := IntToString(p.octave);
    assert forall k :: 2 <= k < |s| ==> s[k] == num[k - 2];
  }

  /** Every valid range with a single-spaced description reads back from
      its first text form. */
  lemma PartialRangeStringRoundTrip(r: Range<Pitch>)
    requires ValidAbsolute(r) && SingleSpaced(r.descr)
    ensures PartialRangeFromString(PartialRangeToString(r)) == Ok(r)
  {
    ProtoPitchTextIsAWord(r.start);
    ProtoPitchTextIsAWord(r.end);
    SplitRangeLineRoundTrip(ProtoPitchToString(r.start), ProtoPitchToString(r.end), r.descr, r.preferred);
    ProtoPitchStringRoundTrip(r.start);
    ProtoPitchStringRoundTrip(r.end);
    ProtoLessIsKeyOrder(r.start, r.end);
  }

  /** `PartialRange.transposed`: both ends move with the first
      transposition, and the constructor runs again. */
  function ProtoTransposedRange(r: Range<Pitch>, i: Interval): (t: Result<Range<Pitch>>)
    requires Fits(i.number, i.modifier)
    ensures t.Ok? ==> t.value.descr == r.descr && t.value.preferred == r.preferred
    ensures t.Ok? ==> t.value.start == TransposedAsWritten(r.start, i) && t.value.end == TransposedAsWritten(r.end, i)
    ensures t.Err? ==> t.error == AssertionError
  {
    var start :- ProtoTransposed(r.start, i);
    var end :- ProtoTransposed(r.end, i);
    NewPartialRange(start, end, r.descr, r.preferred)
  }

  // ---------------------------------------------------------------- instrument

  /** An instrument of the first version: no notes. */
  datatype ProtoInstrument = ProtoInstrument(name: string, ranges: seq<Range<Pitch>>, transposition: Interval)

  /** `PartialRange.__lt__` asserts that the two starts differ; a comparison
      sort compares every two neighbours of its result, so `sorted` fails
      exactly when two ranges share a start. */
  predicate DistinctStarts(rs: seq<Range<Pitch>>) {
    forall i, j :: 0 <= i < j < |rs| ==> rs[i].start != rs[j].start
  }

  /** `Instrument(name, ranges, transposition)`, first version: sort by
      start, then check that each range ends where or before the next one
      starts; the default transposition is the unison. */
  method NewProtoInstrument(name: string, ranges: seq<Range<Pitch>>, transposition: Option<Interval>)
    returns (r: Result<ProtoInstrument>)
    ensures r.Ok? <==> DistinctStarts(ranges) && Touching(SortBy(ranges, PitchRangeKey), NumLexOrd)
    ensures r.Ok? ==> r.value == ProtoInstrument(name, SortBy(ranges, PitchRangeKey), transposition.GetOr(Unison))
    ensures r.Err? ==> r.error == AssertionError
  {
    if !DistinctStarts(ranges) {
      return Err(AssertionError);
    }
    var sorted := SortBy(ranges, PitchRangeKey);
    var ok := ProtoCheckOrder(sorted);
    if !ok {
      return Err(AssertionError);
    }
    return Ok(ProtoInstrument(name, sorted, transposition.GetOr(Unison)));
  }

  /** The check loop of the first constructor, comparing with `<=`. */
  method ProtoCheckOrder(rs: seq<Range<Pitch>>) returns (ok: bool)
    ensures ok <==> Touching(rs, NumLexOrd)
  {
    var i := 0;
    while i < |rs| - 1
      invariant 0 <= i <= if |rs| == 0 then 0 else |rs| - 1
      invariant forall k :: 0 <= k < i ==> NumLexOrd(rs[k].end) <= NumLexOrd(rs[k + 1].start)
    {
      ProtoLessIsKeyOrder(rs[i].end, rs[i + 1].start);
      if !ProtoLessEq(rs[i].end, rs[i + 1].start) {
        return false;
      }
      i := i + 1;
    }
    return true;
  }

  /** `min_sounding_pitch`, first version: the first start, transposed;
      IndexError without ranges. */
  function ProtoMinSoundingPitch(inst: ProtoInstrument): (r: Result<Pitch>)
    requires Fits(inst.transposition.number, inst.transposition.modifier)
    ensures |inst.ranges| == 0 ==> r == Err(IndexError)
    ensures r.Ok? ==> |inst.ranges| > 0 && r.value == TransposedAsWritten(inst.ranges[0].start, inst.transposition)
  {
    if |inst.ranges| == 0 then Err(IndexError) else ProtoTransposed(inst.ranges[0].start, inst.transposition)
  }

  /** `max_sounding_pitch`, first version: the last end, transposed. */
  function ProtoMaxSoundingPitch(inst: ProtoInstrument): (r: Result<Pitch>)
    requires Fits(inst.transposition.number, inst.transposition.modifier)
    ensures |inst.ranges| == 0 ==> r == Err(IndexError)
    ensures r.Ok? ==> |inst.ranges| > 0 && r.value == TransposedAsWritten(inst.ranges[|inst.ranges| - 1].end, inst.transposition)
  {
    if |inst.ranges| == 0 then Err(IndexError)
    else ProtoTransposed(inst.ranges[|inst.ranges| - 1].end, inst.transposition)
  }

  /** `get_sounding_pitch_ranges`, first version: every range transposed,
      the first failure ending the loop. */
  method ProtoSoundingRanges(inst: ProtoInstrument) returns (r: Result<seq<Range<Pitch>>>)
    requires Fits(inst.transposition.number, inst.transposition.modifier)
    ensures r.Ok? <==> forall k :: 0 <= k < |inst.ranges| ==> ProtoTransposedRange(inst.ranges[k], inst.transposition).Ok?
    ensures r.Ok? ==> |r.value| == |inst.ranges|
    ensures r.Ok? ==> forall k :: 0 <= k < |inst.ranges| ==>
                        ProtoTransposedRange(inst.ranges[k], inst.transposition) == Ok(r.value[k])
    ensures r.Err? ==> r.error == AssertionError
  {
    var t := inst.transposition;
    var out: seq<Range<Pitch>> := [];
    for k := 0 to |inst.ranges|
      invariant ProtoShiftedUpTo(inst.ranges, t, out, k)
    {
      var next := ProtoTransposedRange(inst.ranges[k], t);
      if next.Err? {
        return Err(next.error);
      }
      ProtoShiftedAppend(inst.ranges, t, out, k, next.value);
      out := out + [next.value];
    }
    return Ok(out);
  }

  /** `out` holds the first `n` ranges of `rs`, transposed by `t`. */
  predicate ProtoShiftedUpTo(rs: seq<Range<Pitch>>, t: Interval, out: seq<Range<Pitch>>, n: nat)
    requires Fits(t.number, t.modifier)
  {
    && n <= |rs| && |out| == n
    && forall j :: 0 <= j < n ==> ProtoTransposedRange(rs[j], t) == Ok(out[j])
  }

  lemma ProtoShiftedAppend(rs: seq<Range<Pitch>>, t: Interval, out: seq<Range<Pitch>>, n: nat, next: Range<Pitch>)
    requires Fits(t.number, t.modifier)
    requires ProtoShiftedUpTo(rs, t, out, n) && n < |rs| && ProtoTransposedRange(rs[n], t) == Ok(next)
    ensures ProtoShiftedUpTo(rs, t, out + [next], n + 1)
  {
    var longer := out + [next];
    assert forall j :: 0 <= j < n ==> longer[j] == out[j];
    assert longer[n] == next;
  }

  /** The two versions differ on ranges that share a start: an empty range
      C4..C4 followed by C4..D4 touches, which is all the library asks, but
      the first version's sort stops at the shared start. */
  lemma SharedStartOnlyProtoRejects()
    ensures var c4 := Pitch(C, 4, Natural);
            var rs := [Range(c4, c4, "", true), Range(c4, Pitch(D, 4, Natural), "", true)];
            !DistinctStarts(rs) && SortBy(rs, PitchRangeKey) == rs && Touching(rs, NumLexOrd)
  {
    var c4 := Pitch(C, 4, Natural);
    var rs := [Range(c4, c4, "", true), Range(c4, Pitch(D, 4, Natural), "", true)];
    assert rs[0].start == rs[1].start;
    assert rs[1..] == [rs[1]];
    assert SortBy([rs[1]], PitchRangeKey) == [rs[1]] by {
      assert [rs[1]][1..] == [];
    }
    assert SortBy(rs, PitchRangeKey) == InsertBy(rs[0], [rs[1]], PitchRangeKey);
  }
}
