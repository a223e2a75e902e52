/** The constant tables of the music model: clef extents, note names,
    staff/MIDI tables, accidentals and interval modifiers. */
module Consts {
  import opened Wrappers

  /** The seven note letters, in staff order from C. */
  datatype Letter = C | D | E | F | G | A | B

  /** The five accidentals, from double flat ("&") to double sharp ("+"). */
  datatype Accidental = DoubleFlat | Flat | Natural | Sharp | DoubleSharp

  /** Interval qualities: "j" major, "m" minor, "a" augmented, "d" diminished,
      "n" perfect (no modifier). */
  datatype Modifier = Major | Minor | Augmented | Diminished | Perfect

  // Staff-position extent (lowest, highest) of each clef's five lines.
  const UgRange: (int, int) := (16, 24)
  const GRange: (int, int) := (2, 10)
  const FRange: (int, int) := (-10, -2)
  const LfRange: (int, int) := (-24, -16)

  const NoteNames: seq<char> := ['A', 'B', 'C', 'D', 'E', 'F', 'G']

  function LetterChar(l: Letter): char {
    match l
    case C => 'C' case D => 'D' case E => 'E' case F => 'F'
    case G => 'G' case A => 'A' case B => 'B'
  }

  /** Membership test `c in NOTE_NAMES`, returning the letter. */
  function LetterOfChar(c: char): Option<Letter> {
    match c
    case 'C' => Some(C) case 'D' => Some(D) case 'E' => Some(E) case 'F' => Some(F)
    case 'G' => Some(G) case 'A' => Some(A) case 'B' => Some(B)
    case _ => None
  }

  function NoteToStaff(l: Letter): int {
    match l
    case C => 0 case D => 1 case E => 2 case F => 3 case G => 4 case A => 5 case B => 6
  }

  function StaffToNote(k: int): Letter
    requires 0 <= k < 7
  {
    if k == 0 then C else if k == 1 then D else if k == 2 then E else if k == 3 then F
    else if k == 4 then G else if k == 5 then A else B
  }

  function NoteToMidiPitch(l: Letter): int {
    match l
    case C => 0 case D => 2 case E => 4 case F => 5 case G => 7 case A => 9 case B => 11
  }

  /** The spelling chosen for each pitch class. */
  const MidiPitchToNote: seq<string> :=
    ["C", "C#", "D", "Eb", "E", "F", "F#", "G", "Ab", "A", "Bb", "B"]

  /** ACCIDENTALS, ordered from the lowest offset to the highest. */
  const Accidentals: seq<char> := ['&', 'b', 'n', '#', '+']

  function AccidentalChar(a: Accidental): char {
    match a
    case DoubleFlat => '&' case Flat => 'b' case Natural => 'n'
    case Sharp => '#' case DoubleSharp => '+'
  }

  function AccidentalOfChar(c: char): Option<Accidental> {
    match c
    case '&' => Some(DoubleFlat) case 'b' => Some(Flat) case 'n' => Some(Natural)
    case '#' => Some(Sharp) case '+' => Some(DoubleSharp)
    case _ => None
  }

  /** ACCIDENTALS[k] for an in-range index. */
  function AccidentalAt(k: int): Accidental
    requires 0 <= k < 5
  {
    if k == 0 then DoubleFlat else if k == 1 then Flat else if k == 2 then Natural
    else if k == 3 then Sharp else DoubleSharp
  }

  /** ACCIDENTAL_MAP: the semitone offset of an accidental. */
  function AccidentalMap(a: Accidental): int {
    match a
    case DoubleFlat => -2 case Flat => -1 case Natural => 0 case Sharp => 1 case DoubleSharp => 2
  }

  const IntModifier: seq<char> := ['j', 'm', 'a', 'd', 'n']

  function ModifierChar(m: Modifier): char {
    match m
    case Major => 'j' case Minor => 'm' case Augmented => 'a' case Diminished => 'd' case Perfect => 'n'
  }

  function ModifierOfChar(c: char): Option<Modifier> {
    match c
    case 'j' => Some(Major) case 'm' => Some(Minor) case 'a' => Some(Augmented)
    case 'd' => Some(Diminished) case 'n' => Some(Perfect)
    case _ => None
  }

  /** INT_MODIFIER.index(m). */
  function ModifierIndex(m: Modifier): (k: nat)
    ensures k < 5 && IntModifier[k] == ModifierChar(m)
  {
    match m
    case Major => 0 case Minor => 1 case Augmented => 2 case Diminished => 3 case Perfect => 4
  }

  /** Reads a spelling such as "C#" from the MIDI table as a letter and an
      accidental (natural when there is no second character). */
  function ReadNoteName(name: string): Option<(Letter, Accidental)> {
    if |name| == 1 && LetterOfChar(name[0]).Some? then
      Some((LetterOfChar(name[0]).value, Natural))
    else if |name| == 2 && LetterOfChar(name[0]).Some? && AccidentalOfChar(name[1]).Some? then
      Some((LetterOfChar(name[0]).value, AccidentalOfChar(name[1]).value))
    else None
  }

  // ---------------------------------------------------------------- table facts

  lemma NoteNamesAreAToG()
    ensures |NoteNames| == 7
    ensures forall k :: 0 <= k < 7 ==> NoteNames[k] == ('A' as int + k) as char
    ensures forall c :: LetterOfChar(c).Some? <==> c in NoteNames
    ensures forall l :: LetterOfChar(LetterChar(l)) == Some(l)
  {
  }

  lemma StaffTablesInverse()
    ensures forall l :: 0 <= NoteToStaff(l) < 7 && StaffToNote(NoteToStaff(l)) == l
    ensures forall k :: 0 <= k < 7 ==> NoteToStaff(StaffToNote(k)) == k
  {
  }

  lemma AccidentalTablesAgree()
    ensures |Accidentals| == 5
    ensures forall k :: 0 <= k < 5 ==> AccidentalMap(AccidentalAt(k)) == k - 2
    ensures forall k :: 0 <= k < 5 ==> AccidentalChar(AccidentalAt(k)) == Accidentals[k]
    ensures forall c :: AccidentalOfChar(c).Some? <==> c in Accidentals
    ensures forall a :: AccidentalOfChar(AccidentalChar(a)) == Some(a)
    ensures forall a :: AccidentalAt(AccidentalMap(a) + 2) == a
  {
  }

  lemma IntModifierTable()
    ensures forall c :: ModifierOfChar(c).Some? <==> c in IntModifier
    ensures forall m :: ModifierOfChar(ModifierChar(m)) == Some(m)
  {
  }

  /** Every spelling in the MIDI table names a letter and accidental whose
      MIDI offsets add up to its own pitch class. */
  lemma MidiTableConsistent(k: int)
    requires 0 <= k < 12
    ensures ReadNoteName(MidiPitchToNote[k]).Some?
    ensures var (l, a) := ReadNoteName(MidiPitchToNote[k]).value;
            NoteToMidiPitch(l) + AccidentalMap(a) == k && a in {Flat, Natural, Sharp}
  {
    assert k == 0 || k == 1 || k == 2 || k == 3 || k == 4 || k == 5 || k == 6 || k == 7
        || k == 8 || k == 9 || k == 10 || k == 11;
  }

  /** The MIDI table spells each natural pitch class by its bare letter. */
  lemma MidiTableNaturals(l: Letter)
    ensures 0 <= NoteToMidiPitch(l) < 12
    ensures MidiPitchToNote[NoteToMidiPitch(l)] == [LetterChar(l)]
  {
  }

  lemma ClefRanges()
    ensures UgRange.1 - UgRange.0 == 8 && GRange.1 - GRange.0 == 8
    ensures FRange.1 - FRange.0 == 8 && LfRange.1 - LfRange.0 == 8
    ensures GRange.0 == -FRange.1 && GRange.1 == -FRange.0
    ensures UgRange.0 == -LfRange.1 && UgRange.1 == -LfRange.0
  {
  }
}
