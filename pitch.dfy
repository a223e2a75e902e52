/** Absolute pitches: staff position, MIDI-style semitone number, text form,
    sort key and transposition by an interval (lib/music.py, class Pitch). */
module Pitches {
  import opened Wrappers
  import opened Text
  import opened Consts
  import opened Intervals

  datatype Pitch = Pitch(note: Letter, octave: int, accidental: Accidental)

  /** C4 (middle C) is position 0 and D4 is 1; accidentals do not move it. */
  function StaffPosition(p: Pitch): (r: int)
    ensures p.note == C && p.octave == 4 ==> r == 0
  {
    StaffTablesInverse();
    (p.octave - 4) * 7 + NoteToStaff(p.note)
  }

  /** Staff positions count seven per octave: octave `o` holds the positions
      from `7 * (o - 4)` on. */
  lemma StaffPositionOctave(p: Pitch)
    ensures 7 * (p.octave - 4) <= StaffPosition(p) < 7 * (p.octave - 4) + 7
  {
    StaffTablesInverse();
  }

  /** `from_staff_position(pos, accidental)`. */
  function FromStaffPosition(pos: int, accidental: Accidental): (r: Pitch)
    ensures StaffPosition(r) == pos && r.accidental == accidental
  {
    StaffTablesInverse();
    Pitch(StaffToNote(pos % 7), pos / 7 + 4, accidental)
  }

  lemma StaffPositionRoundTrip(p: Pitch, a: Accidental)
    ensures FromStaffPosition(StaffPosition(p), a) == Pitch(p.note, p.octave, a)
  {
    DivMod7(p.octave - 4, NoteToStaff(p.note));
    StaffTablesInverse();
  }

  /** `to_midi_pitch`: C4 is 60. */
  function MidiPitch(p: Pitch): (r: int)
    ensures p == Pitch(C, 4, Natural) ==> r == 60
  {
    MidiTableNaturals(p.note);
    NoteToMidiPitch(p.note) + AccidentalMap(p.accidental) + p.octave * 12 + 12
  }

  /** A pitch of octave `o` sounds within two semitones of the twelve MIDI
      numbers from `12 * (o + 1)`. */
  lemma MidiPitchOctave(p: Pitch)
    ensures 12 * (p.octave + 1) - 2 <= MidiPitch(p) < 12 * (p.octave + 1) + 14
  {
    MidiTableNaturals(p.note);
  }

  /** `from_midi_pitch`: the octave from `m // 12 - 1` and the spelling of the
      pitch class from the MIDI table. */
  function FromMidiPitch(m: int): (r: Pitch)
    ensures MidiPitch(r) == m
    ensures r.accidental in {Flat, Natural, Sharp}
  {
    MidiTableConsistent(m % 12);
    var (l, a) := ReadNoteName(MidiPitchToNote[m % 12]).value;
    Pitch(l, m / 12 - 1, a)
  }

  /** A natural pitch survives the trip through its MIDI number. */
  lemma MidiRoundTripNatural(p: Pitch)
    requires p.accidental == Natural
    ensures FromMidiPitch(MidiPitch(p)) == p
  {
    var m, k := MidiPitch(p), NoteToMidiPitch(p.note);
    MidiTableNaturals(p.note);
    assert m == 12 * (p.octave + 1) + k;
    assert m / 12 == p.octave + 1 && m % 12 == k by {
      DivMod12(p.octave + 1, k);
    }
    assert ReadNoteName(MidiPitchToNote[k]) == Some((p.note, Natural)) by {
      assert LetterOfChar(LetterChar(p.note)) == Some(p.note) by {
        NoteNamesAreAToG();
      }
    }
  }

  // ---------------------------------------------------------------- text form

  /** `Pitch.from_str`: a letter, an optional accidental character, an octave. */
  function PitchFromString(s: string): (r: Result<Pitch>)
    ensures r.Ok? ==> |s| >= 2 && LetterChar(r.value.note) == s[0]
  {
    if |s| == 0 then Err(IndexError)
    else match LetterOfChar(s[0])
      case None => Err(ValueError)
      case Some(l) =>
        NoteNamesAreAToG();
        if |s| < 2 then Err(IndexError)
        else match AccidentalOfChar(s[1])
          case Some(a) =>
            (match ParseInt(s[2..])
             case None => Err(ValueError)
             case Some(o) => Ok(Pitch(l, o, a)))
          case None =>
            (match ParseInt(s[1..])
             case None => Err(ValueError)
             case Some(o) => Ok(Pitch(l, o, Natural)))
  }

  /** `str(pitch)`: the letter, then the accidental character unless the
      pitch is natural, then the octave. */
  function PitchToString(p: Pitch): (r: string)
    ensures |IntToString(p.octave)| < |r| && r[0] == LetterChar(p.note)
    ensures AccidentalOfChar(r[1]).Some? <==> p.accidental != Natural
    ensures r[|r| - |IntToString(p.octave)|..] == IntToString(p.octave)
  {
    AccidentalTablesAgree();
    var num := IntToString(p.octave);
    assert AccidentalOfChar(num[0]).None?;
    [LetterChar(p.note)]
    + (if p.accidental == Natural then "" else [AccidentalChar(p.accidental)])
    + IntToString(p.octave)
  }

  /** `Pitch.from_str(str(p)) == p`, negative octaves included. */
  lemma PitchStringRoundTrip(p: Pitch)
    ensures PitchFromString(PitchToString(p)) == Ok(p)
  {
    NoteNamesAreAToG();
    AccidentalTablesAgree();
    IntToStringRoundTrip(p.octave);
    var s := PitchToString(p);
    var num := IntToString(p.octave);
    if p.accidental == Natural {
      assert s[1..] == num;
      assert s[1] == num[0];
      assert AccidentalOfChar(s[1]) == None;
    } else {
      assert s[2..] == num;
    }
  }

  /** The source builds `from_midi_pitch`'s result by formatting the table's
      spelling and the octave and parsing that text; the direct definition
      agrees with that route. */
  lemma FromMidiPitchViaText(m: int)
    ensures PitchFromString(MidiPitchToNote[m % 12] + IntToString(m / 12 - 1)) == Ok(FromMidiPitch(m))
  {
    MidiTableConsistent(m % 12);
    var (l, a) := ReadNoteName(MidiPitchToNote[m % 12]).value;
    assert PitchToString(Pitch(l, m / 12 - 1, a)) == MidiPitchToNote[m % 12] + IntToString(m / 12 - 1);
    PitchStringRoundTrip(Pitch(l, m / 12 - 1, a));
  }

  // ---------------------------------------------------------------- ordering

  /** `num_lex_ord`: an integer sort key for pitches; the keys of one
      octave lie below those of the next. */
  function NumLexOrd(p: Pitch): (r: int)
    ensures 120 * p.octave - 2 <= r <= 120 * p.octave + 62
  {
    StaffTablesInverse();
    120 * p.octave + 10 * NoteToStaff(p.note) + AccidentalMap(p.accidental)
  }

  /** The key orders pitches by staff position, then by accidental offset,
      and two pitches share a key only when they are equal. */
  lemma NumLexOrdIsLexicographic(p: Pitch, q: Pitch)
    ensures NumLexOrd(p) < NumLexOrd(q) <==>
              StaffPosition(p) < StaffPosition(q)
              || (StaffPosition(p) == StaffPosition(q) && AccidentalMap(p.accidental) < AccidentalMap(q.accidental))
    ensures NumLexOrd(p) == NumLexOrd(q) <==> p == q
  {
    StaffTablesInverse();
    AccidentalTablesAgree();
    if p.octave == q.octave {
      if NoteToStaff(p.note) == NoteToStaff(q.note) {
        assert p.note == q.note;
      }
    }
  }

  // ---------------------------------------------------------------- transposition

  /** The staff steps an interval moves: `dir * (number - 1)`. */
  function StepShift(i: Interval): int {
    Directed(i, i.number - 1)
  }

  /** The staff position the transposed pitch is written on. */
  function TargetPosition(p: Pitch, i: Interval): int {
    StaffPosition(p) + StepShift(i)
  }

  /** The MIDI number the transposed pitch must sound at. */
  function CorrectMidi(p: Pitch, i: Interval): int
    requires Fits(i.number, i.modifier)
  {
    MidiPitch(p) + ToHalftones(i)
  }

  /** The accidental offset that spells the correct pitch on the target
      position (`additional_shift`). */
  function NeededShift(p: Pitch, i: Interval): int
    requires Fits(i.number, i.modifier)
  {
    CorrectMidi(p, i) - MidiPitch(FromStaffPosition(TargetPosition(p, i), Natural))
  }

  /** Python's `ACCIDENTALS[k]`: negative indices count from the end, and an
      index outside -5..4 raises IndexError (None). */
  function PyAccidentalIndex(k: int): (r: Option<Accidental>)
    ensures r.Some? <==> -5 <= k < 5
  {
    if 0 <= k < 5 then Some(AccidentalAt(k))
    else if -5 <= k < 0 then Some(AccidentalAt(k + 5))
    else None
  }

  /** `transposed` exactly as written: the accidental is looked up with a
      possibly negative index, and only an IndexError triggers the fallback.
      The result sounds right except for a needed offset of -3..-7, where it
      lands on the target position five semitones too high. */
  function TransposedAsWritten(p: Pitch, i: Interval): (r: Pitch)
    requires Fits(i.number, i.modifier)
    ensures !(-7 <= NeededShift(p, i) <= -3) ==> MidiPitch(r) == MidiPitch(p) + ToHalftones(i)
    ensures -7 <= NeededShift(p, i) <= -3 ==>
              StaffPosition(r) == TargetPosition(p, i) && MidiPitch(r) == MidiPitch(p) + ToHalftones(i) + 5
  {
    AccidentalTablesAgree();
    match PyAccidentalIndex(NeededShift(p, i) + 2)
    case Some(a) => FromStaffPosition(TargetPosition(p, i), a)
    case None => FromMidiPitch(CorrectMidi(p, i))
  }

  /** `transposed` with the evident intent: spell the result on the target
      staff position when an accidental of offset -2..2 reaches the correct
      pitch, and otherwise fall back to the MIDI table's spelling. */
  function Transposed(p: Pitch, i: Interval): (r: Pitch)
    requires Fits(i.number, i.modifier)
    ensures MidiPitch(r) == MidiPitch(p) + ToHalftones(i)
    ensures -2 <= NeededShift(p, i) <= 2 ==>
              StaffPosition(r) == TargetPosition(p, i) && AccidentalMap(r.accidental) == NeededShift(p, i)
    ensures !(-2 <= NeededShift(p, i) <= 2) ==> r.accidental in {Flat, Natural, Sharp}
  {
    AccidentalTablesAgree();
    var k := NeededShift(p, i);
    if -2 <= k <= 2 then FromStaffPosition(TargetPosition(p, i), AccidentalAt(k + 2))
    else FromMidiPitch(CorrectMidi(p, i))
  }

  /** The two versions agree except where the needed offset is -3..-7, the
      shifts a negative index silently wraps. */
  lemma TransposedVersionsAgree(p: Pitch, i: Interval)
    requires Fits(i.number, i.modifier)
    ensures TransposedAsWritten(p, i) == Transposed(p, i) <== !(-7 <= NeededShift(p, i) <= -3)
  {
  }

  /** Whenever an accidental `a` spells the correct pitch on the target
      position, `transposed` writes exactly that accidental there. */
  lemma TransposedSpelledOn(p: Pitch, i: Interval, natural: Pitch, a: Accidental)
    requires Fits(i.number, i.modifier)
    requires StaffPosition(natural) == TargetPosition(p, i) && natural.accidental == Natural
    requires AccidentalMap(a) == MidiPitch(p) + ToHalftones(i) - MidiPitch(natural)
    ensures Transposed(p, i) == Pitch(natural.note, natural.octave, a)
  {
    var k := NeededShift(p, i);
    assert k == AccidentalMap(a) && -2 <= k <= 2 by {
      StaffPositionRoundTrip(natural, Natural);
      assert FromStaffPosition(TargetPosition(p, i), Natural) == natural;
    }
    assert AccidentalAt(k + 2) == a by {
      AccidentalTablesAgree();
    }
    TransposedSpelledAt(p, i);
    StaffPositionRoundTrip(natural, a);
  }

  /** Outside double flat..double sharp `transposed` falls back to the
      spelling of the MIDI table. */
  lemma TransposedFallsBack(p: Pitch, i: Interval)
    requires Fits(i.number, i.modifier)
    requires !(-2 <= NeededShift(p, i) <= 2)
    ensures Transposed(p, i) == FromMidiPitch(MidiPitch(p) + ToHalftones(i))
  {
  }

  /** The fallback spelling `q` of the correct MIDI number `m`. */
  lemma TransposedFallsBackTo(p: Pitch, i: Interval, m: int, q: Pitch)
    requires Fits(i.number, i.modifier)
    requires !(-2 <= NeededShift(p, i) <= 2)
    requires CorrectMidi(p, i) == m && FromMidiPitch(m) == q
    ensures Transposed(p, i) == q
  {
    TransposedFallsBack(p, i);
  }

  /** When the offset needed is -3..-7, the negative index wraps around to
      the accidental five places further on. */
  lemma TransposedAsWrittenWraps(p: Pitch, i: Interval, natural: Pitch, k: int)
    requires Fits(i.number, i.modifier)
    requires StaffPosition(natural) == TargetPosition(p, i) && natural.accidental == Natural
    requires k == MidiPitch(p) + ToHalftones(i) - MidiPitch(natural) && -7 <= k <= -3
    ensures TransposedAsWritten(p, i) == Pitch(natural.note, natural.octave, AccidentalAt(k + 7))
  {
    StaffPositionRoundTrip(natural, Natural);
    StaffPositionRoundTrip(natural, AccidentalAt(k + 7));
  }

  /** MIDI 42 is spelled F sharp 2. */
  lemma FromMidiPitch42()
    ensures FromMidiPitch(42) == Pitch(F, 2, Sharp)
  {
    DivMod12(3, 6);
    MidiTableConsistent(6);
  }

  /** The numbers of the counterexample below. */
  lemma DiminishedOctaveFromADoubleFlat()
    ensures ToHalftones(Interval(8, false, Diminished)) == 11
    ensures StaffPosition(Pitch(A, 2, Natural)) == TargetPosition(Pitch(A, 1, DoubleFlat), Interval(8, false, Diminished))
    ensures MidiPitch(Pitch(A, 1, DoubleFlat)) == 31 && MidiPitch(Pitch(A, 2, Natural)) == 45
    ensures MidiPitch(Pitch(A, 2, DoubleSharp)) == 47
  {
  }

  /** A diminished octave is a valid interval. */
  lemma DiminishedOctaveValid()
    ensures Valid(Interval(8, false, Diminished))
  {
    NewIntervalOutcome(8, false, Some(Diminished));
  }

  /** Counterexample: A double-flat 1 (MIDI 31) up a diminished octave (11
      semitones) should sound at MIDI 42; the target position holds A2
      (MIDI 45), so the offset needed is -3, and the wrapped index -1 picks a
      double sharp: A double-sharp 2, MIDI 47. */
  lemma TransposedAsWrittenWrapsNegativeShift()
    ensures TransposedAsWritten(Pitch(A, 1, DoubleFlat), Interval(8, false, Diminished)) == Pitch(A, 2, DoubleSharp)
  {
    var p, i := Pitch(A, 1, DoubleFlat), Interval(8, false, Diminished);
    NegativeShiftTarget();
    OffsetMinusThreeWraps(NeededShift(p, i));
    TransposedAsWrittenSpelledOn(p, i, DoubleSharp);
    StaffPositionRoundTrip(Pitch(A, 2, Natural), DoubleSharp);
  }

  /** An offset of -3 reads index -1, the last entry of the accidental list. */
  lemma OffsetMinusThreeWraps(k: int)
    requires k == -3
    ensures PyAccidentalIndex(k + 2) == Some(DoubleSharp)
  {
  }

  /** Within double flat..double sharp the corrected version spells the
      result on the target staff position. */
  lemma TransposedSpelledAt(p: Pitch, i: Interval)
    requires Fits(i.number, i.modifier)
    requires -2 <= NeededShift(p, i) <= 2
    ensures Transposed(p, i) == FromStaffPosition(TargetPosition(p, i), AccidentalAt(NeededShift(p, i) + 2))
  {
  }

  /** Where the code as written finds accidental `a` for the needed offset,
      it spells the result as `a` on the target staff position. */
  lemma TransposedAsWrittenSpelledOn(p: Pitch, i: Interval, a: Accidental)
    requires Fits(i.number, i.modifier)
    requires PyAccidentalIndex(NeededShift(p, i) + 2) == Some(a)
    ensures TransposedAsWritten(p, i) == FromStaffPosition(TargetPosition(p, i), a)
  {
  }

  /** The counterexample should sound at MIDI 42 and needs an offset of -3
      on the staff position of A2. */
  lemma NegativeShiftTarget()
    ensures var p, i := Pitch(A, 1, DoubleFlat), Interval(8, false, Diminished);
            CorrectMidi(p, i) == 42 && NeededShift(p, i) == -3 && TargetPosition(p, i) == StaffPosition(Pitch(A, 2, Natural))
  {
    DiminishedOctaveFromADoubleFlat();
    StaffPositionRoundTrip(Pitch(A, 2, Natural), Natural);
  }

  /** The corrected version spells the same case as F sharp 2 (MIDI 42). */
  lemma TransposedCorrectsNegativeShift()
    ensures Transposed(Pitch(A, 1, DoubleFlat), Interval(8, false, Diminished)) == Pitch(F, 2, Sharp)
  {
    NegativeShiftTarget();
    FromMidiPitch42();
    TransposedFallsBackTo(Pitch(A, 1, DoubleFlat), Interval(8, false, Diminished), 42, Pitch(F, 2, Sharp));
  }

  /** Transposing by a unison leaves every pitch unchanged. */
  lemma TransposeByUnison(p: Pitch)
    ensures Transposed(p, Interval(1, false, Perfect)) == p
  {
    TransposedSpelledOn(p, Interval(1, false, Perfect), Pitch(p.note, p.octave, Natural), p.accidental);
  }

  /** When both endpoints stay within double flat..double sharp, transposing
      keeps their order under the sort key. */
  lemma TransposePreservesOrder(p: Pitch, q: Pitch, i: Interval)
    requires Fits(i.number, i.modifier)
    requires -2 <= NeededShift(p, i) <= 2 && -2 <= NeededShift(q, i) <= 2
    requires NumLexOrd(p) <= NumLexOrd(q)
    ensures NumLexOrd(Transposed(p, i)) <= NumLexOrd(Transposed(q, i))
  {
    NumLexOrdIsLexicographic(p, q);
    NumLexOrdIsLexicographic(Transposed(p, i), Transposed(q, i));
    if StaffPosition(p) == StaffPosition(q) {
      StaffTablesInverse();
      assert p.octave == q.octave && p.note == q.note;
    }
  }

  /** Transposing a natural C: a minor third up from C0 is E flat 0 and a
      major third up from C2 is E2. */
  lemma TransposeThirdsFromC()
    ensures Transposed(Pitch(C, 0, Natural), Interval(3, false, Minor)) == Pitch(E, 0, Flat)
    ensures Transposed(Pitch(C, 2, Natural), Interval(3, false, Major)) == Pitch(E, 2, Natural)
  {
    assert ToHalftones(Interval(3, false, Minor)) == 3 by { }
    assert ToHalftones(Interval(3, false, Major)) == 4 by { }
    TransposedSpelledOn(Pitch(C, 0, Natural), Interval(3, false, Minor), Pitch(E, 0, Natural), Flat);
    TransposedSpelledOn(Pitch(C, 2, Natural), Interval(3, false, Major), Pitch(E, 2, Natural), Natural);
  }

  /** E2 up a major third is G sharp 2. */
  lemma TransposeThirdToSharp()
    ensures Transposed(Pitch(E, 2, Natural), Interval(3, false, Major)) == Pitch(G, 2, Sharp)
  {
    assert ToHalftones(Interval(3, false, Major)) == 4 by { }
    TransposedSpelledOn(Pitch(E, 2, Natural), Interval(3, false, Major), Pitch(G, 2, Natural), Sharp);
  }

  /** B1 up a major third is D sharp 2. */
  lemma TransposeThirdAcrossOctave()
    ensures Transposed(Pitch(B, 1, Natural), Interval(3, false, Major)) == Pitch(D, 2, Sharp)
  {
    assert ToHalftones(Interval(3, false, Major)) == 4 by { }
    TransposedSpelledOn(Pitch(B, 1, Natural), Interval(3, false, Major), Pitch(D, 2, Natural), Sharp);
  }

  /** B flat 1 up a major third is D2. */
  lemma TransposeThirdFromFlat()
    ensures Transposed(Pitch(B, 1, Flat), Interval(3, false, Major)) == Pitch(D, 2, Natural)
  {
    assert ToHalftones(Interval(3, false, Major)) == 4 by { }
    TransposedSpelledOn(Pitch(B, 1, Flat), Interval(3, false, Major), Pitch(D, 2, Natural), Natural);
  }

  /** A fifth up from C1 is G1. */
  lemma TransposeFifth()
    ensures Transposed(Pitch(C, 1, Natural), Interval(5, false, Perfect)) == Pitch(G, 1, Natural)
  {
    assert ToHalftones(Interval(5, false, Perfect)) == 7 by { }
    TransposedSpelledOn(Pitch(C, 1, Natural), Interval(5, false, Perfect), Pitch(G, 1, Natural), Natural);
  }

  /** An octave up from C1 is C2. */
  lemma TransposeOctave()
    ensures Transposed(Pitch(C, 1, Natural), Interval(8, false, Perfect)) == Pitch(C, 2, Natural)
  {
    assert ToHalftones(Interval(8, false, Perfect)) == 12 by { }
    TransposedSpelledOn(Pitch(C, 1, Natural), Interval(8, false, Perfect), Pitch(C, 2, Natural), Natural);
  }
}
