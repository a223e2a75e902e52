# Instrument pitch-range charts: a verified model of the core

The repository draws charts of the pitch ranges of musical instruments. The
program reads an instrument file, then builds intervals, pitches and ranges
from it. It sorts and checks the ranges, transposes them to sounding pitch,
decides note heads and accidental glyphs, and sizes the staff. It can also
split the finished chart into printable pages. This project models that
integer and list core in Dafny and proves what the code promises about it.

The modules follow the program's structure:

| module | file | models |
|---|---|---|
| `Wrappers` | wrappers.dfy | `Option`, `Result` and the Python exception kinds the core raises |
| `Consts` | consts.dfy | the tables of `music/consts.py`: clef extents, letters, staff/MIDI/accidental tables, `INT_MODIFIER` |
| `Text` | text.dfy | the pieces of `str` the core uses: `strip`, `split()`, `split(c)`, `lower`, `int()` and `str(n)` |
| `Intervals` | interval.dfy | `Interval` of `lib/music.py`: construction rules, text form, semitones, `from_halftones`, `normalize`, `num_lex_ord` |
| `Pitches` | pitch.dfy | `Pitch` of `lib/music.py`: staff position, MIDI number, text form, sort key, `transposed` |
| `Ranges` | ranges.dfy | `AbsoluteRange` and `RelativeRange`: the line format, the start-before-end rule, transposition |
| `Instruments` | instruments.dfy | `Instrument` and `StringedInst` of `lib/inst_graph.py`: sorting, the touching check, sounding pitches, `from_strs` |
| `NoteHeads` | noteheads.dfy | `calc_note_heads(_relative)`, `find_accidentals` and the per-string accidental loop |
| `Staff` | staff.dfy | `calc_lowest_line`, `calc_highest_line`, the staff-line style rule, the extent and columns of `generate_staff` |
| `Tiles` | tiles.dfy | `calc_tiles` and the page windows of `split_into_tiles`, over `real` |
| `Parser` | parser.dfy | the line clean-up of `parse` and the state machine of `__parse_lines` |
| `Prototype` | proto.dfy | the earlier copy in `music/__init__.py`, as separate definitions with lemmas comparing them to the library |

The files are plain Dafny modules that import each other. They are verified
together.

Modelling choices:

- Letters, accidentals and interval qualities are enumerations.
  - The character tables are functions.
  - Lemmas tie them to the tables as written.
- Integers are unbounded, as in Python. Python's `//` and `%` are floor
  division; on a positive divisor they agree with Dafny's Euclidean
  operators, and every divisor in the core is positive.
- Python's exceptions are a `Result`.
  - The error kind (`AssertionError`, `ValueError`, `IndexError`, `KeyError`,
    `ZeroDivisionError`) is part of every contract.
  - A failed `assert` in a constructor is `AssertionError`.
- Loops in the source are methods with loops in the model:
  - `calc_note_heads`, `find_accidentals` and the nested accidental loop;
  - the constructors' range check and `get_sounding_pitch_ranges`;
  - `draw_staff_lines` and the column loop of `generate_staff`;
  - the tile loop of `split_into_tiles`;
  - the reading loop of `parse` and `__parse_lines`.
  Each method is proved against a function that specifies it.
- `Pitch.transposed` is modelled twice:
  - `TransposedAsWritten` is the code as written;
  - `Transposed` is the evident intent (see Findings).
  The rest of the library model uses `Transposed`.
- The prototype shares every definition that is identical in both copies:
  - `to_halftones`, `to_midi_pitch`, `to_staff_position` and `from_staff_position`;
  - `calc_note_heads`, `find_accidentals`, `calc_lowest_line`, `calc_highest_line`;
  - the `draw_staff_lines` style rule and the `generate_staff` extent and columns.
  The definitions that differ are written separately in `Prototype`. Lemmas
  there state each difference.
- Identical copies are modelled once, and the rows below cover them:
  - the prototype's `to_halftones` (music/__init__.py:55-99) and its semitone test (music/__init__.py:302-321);
  - `calc_note_heads_relative` (lib/inst_graph.py:356-384), which is the generic `CalcNoteHeads` over intervals;
  - in `__main__.py`: `calc_note_heads` (13-36), `find_accidentals` (38-49),
    `calc_lowest_line` (161-172), `calc_highest_line` (175-186), the style rule (198-213),
    the full extent (279-280) and the columns and separators (291-306).

## Model

| member | source | states |
|---|---|---|
| Consts.ModifierIndex | music/consts.py:59 | the index of a quality in `INT_MODIFIER` is below five and holds that quality's character |
| Consts.NoteNamesAreAToG | music/consts.py:5 | `NOTE_NAMES` is exactly "A".."G", and a character is a note name iff it reads as a letter |
| Consts.StaffTablesInverse | music/consts.py:7-24 | `NOTE_TO_STAFF` and `STAFF_TO_NOTE` are mutually inverse bijections between C..B and 0..6 |
| Consts.AccidentalTablesAgree | music/consts.py:50-57 | `ACCIDENTAL_MAP[ACCIDENTALS[k]] == k - 2`, so the list is ordered by offset; characters and accidentals correspond one to one |
| Consts.IntModifierTable | music/consts.py:59 | a character is in `INT_MODIFIER` iff it reads as a quality, and every quality reads back from its character |
| Consts.MidiTableConsistent | music/consts.py:26-57 | every spelling `k -> name` of `MIDI_PITCH_TO_NOTE` names a letter and accidental whose MIDI offset is `k` |
| Consts.MidiTableNaturals | music/consts.py:26-49 | `MIDI_PITCH_TO_NOTE[NOTE_TO_MIDI_PITCH[L]]` is the bare letter `L` |
| Consts.ClefRanges | music/consts.py:1-4 | each clef spans eight positions; G mirrors F and UG mirrors LF around middle C |
| Text.LStrip | lib/parser.py:5-6 | the result is a suffix that starts with a non-space, and everything removed is whitespace |
| Text.RStrip | lib/parser.py:5-6 | the result is a prefix that ends with a non-space, and everything removed is whitespace |
| Text.Strip | lib/parser.py:5-6 | `strip()` gives a slice of the input with no whitespace at either end |
| Text.WordLength | lib/music.py:332 | the leading word of a text is free of whitespace and ends at the first whitespace |
| Text.SplitWs | lib/music.py:332 | `split()` yields non-empty words without whitespace |
| Text.WordLengthOfWord | lib/music.py:332 | a word followed by whitespace or nothing is read as exactly that word |
| Text.SplitWsWord | lib/music.py:332 | splitting "word rest" gives the word and then the split of the rest |
| Text.SplitOn | lib/parser.py:28 | `split(":")` yields at least one part, and no part holds the separator |
| Text.SplitOnJoin | lib/parser.py:28 | joining the parts of `split(c)` with `c` gives the text back |
| Text.SplitOnNone | lib/parser.py:28 | a text without the separator is a single part |
| Text.SplitOnFirst | lib/parser.py:28 | a separator-free first part is split off unchanged |
| Text.BeforeComment | lib/parser.py:5 | `split("//")[0]` is the longest prefix without "//", and "//" follows it when it is shorter than the line |
| Text.Lower | lib/parser.py:31 | `lower()` keeps the length, lowers each character and yields a lowercase text |
| Text.NatToString | lib/music.py:211-213 | the decimal text of a natural number is non-empty and all digits |
| Text.NatToStringValue | lib/music.py:211-213 | the digits of `str(n)` have the value `n` |
| Text.IntToStringRoundTrip | lib/music.py:197-213 | `int(str(n)) == n` for every integer, negative ones included |
| Text.IntToString | lib/music.py:211-213 | `str(n)` is one non-empty word: all digits for n >= 0, and "-" followed by digits exactly when n < 0 |
| Text.ParseInt | lib/music.py:83 | `int(s)` succeeds iff `s` is an optional sign followed by at least one digit; a negative value needs "-", and a digit string gives its decimal value |
| Text.Join | lib/music.py:339 | `sep.join(parts)` is empty for no parts; otherwise it starts with the first part and is as long as the parts plus one separator between each pair |
| Intervals.NormalizedNumber | lib/music.py:100-104 | the degree folded into an octave lies in 1..7 |
| Intervals.BaseHalftones | lib/music.py:100-147 | the unsigned count is 12 per whole octave plus the major-scale step of the folded degree, moved by the quality: minor -1, augmented +1, diminished -1 on perfect degrees and -2 on the others |
| Intervals.ToHalftones | lib/music.py:100-147 | the count is the unsigned count carrying the interval's direction; apart from d1 it is <= 0 for down intervals and >= 0 for up ones |
| Intervals.NewInterval | lib/music.py:18-47 | a built interval keeps its number and quality (perfect when none is given) |
| Intervals.NewIntervalOutcome | lib/music.py:18-47 | construction fails iff number < 1, the quality does not suit the degree, or the interval is d1, whose direction always contradicts its semitone count; a down perfect unison becomes up |
| Intervals.BasePositive | lib/music.py:100-147 | the unsigned semitone count is negative only for d1 and zero only for degrees 1 and 2 |
| Intervals.ValidIff | lib/music.py:18-47 | the constructible intervals are exactly those meeting the constructor's checks, written out |
| Intervals.NewIntervalValid | lib/music.py:18-47 | whatever the constructor builds is valid |
| Intervals.ReadIntervalText | lib/music.py:64-87 | reading fails only with IndexError or ValueError, and the interval is down iff the text starts with "-" |
| Intervals.UnisonTextsRead | lib/music.py:64-87 | "1", "-1" and "d1" read as the up unison, the down unison and the diminished unison |
| Intervals.IntervalFromString | lib/music.py:64-87 | every interval read from text is valid |
| Intervals.WrittenModifier | lib/music.py:89-92 | the written quality is absent for perfect and otherwise is the quality itself |
| Intervals.IntervalToString | lib/music.py:89-92 | `repr` is one word that ends with the number's text, never starts with "!", and starts with "-" iff the interval is down |
| Intervals.ReadIntervalTextRoundTrip | lib/music.py:64-92 | reading `repr(i)` gives back its direction, number and written quality |
| Intervals.IntervalStringRoundTrip | lib/music.py:64-92 | `from_str(repr(i)) == i` for every valid interval |
| Intervals.UnisonText | tests/test_music.py:50-64 | "1" and "-1" both give the up unison, and "d1" raises ValueError |
| Intervals.FromHalftones | lib/music.py:149-180 | `from_halftones(n)` is valid and spans exactly `n` semitones |
| Intervals.FromHalftonesFacts | lib/music.py:149-180 | the octave and pitch-class choice of `from_halftones` is valid and spans `n` semitones |
| Intervals.NormalizeFacts | lib/music.py:182-183 | `normalize` keeps the semitone count and is idempotent |
| Intervals.Normalize | lib/music.py:182-183 | `normalize` gives a valid interval of the same semitone count |
| Intervals.HalftoneTable | tests/test_music.py:35-65 | the semitone table 1->0, m2->1 ... j7->11, d2->0, a2->3, d3->2, a3->5, -m6->-8, m13->20 |
| Intervals.NormalizeExamples | tests/test_music.py:67-72 | d2 and -d2 normalise to 1, d5 to a4, -d5 to -a4, a3 to 4, -a3 to -4 |
| Intervals.HalftoneExamples | lib/music.py:100-147 | d2 and -d2 span 0, d5 and -d5 span 6 and -6, a3 and -a3 span 5 and -5 |
| Intervals.IntervalLexOrd | lib/music.py:56-62 | the key is negative iff the interval is down; up keys are at least 100 and down keys at most -100 |
| Intervals.IntervalLexOrdByNumber | lib/music.py:56-62 | among upward intervals the sort key orders by degree number first |
| Pitches.StaffPosition | lib/music.py:238-244 | C4 (middle C) is staff position 0 |
| Pitches.StaffPositionOctave | lib/music.py:238-244 | octave `o` occupies the seven positions from 7·(o - 4) |
| Pitches.MidiPitch | lib/music.py:215-221 | C4 is MIDI 60 |
| Pitches.MidiPitchOctave | lib/music.py:215-221 | a pitch of octave `o` sounds from 12·(o + 1) - 2 to 12·(o + 1) + 13 |
| Pitches.FromStaffPosition | lib/music.py:246-249 | the built pitch lies on the given staff position with the given accidental |
| Pitches.StaffPositionRoundTrip | lib/music.py:238-249 | `from_staff_position(p.to_staff_position(), a)` is `p` with accidental `a` |
| Pitches.FromMidiPitch | lib/music.py:224-227 | `from_midi_pitch(m).to_midi_pitch() == m` for every integer, spelled with flat, natural or sharp |
| Pitches.MidiRoundTripNatural | lib/music.py:215-227 | a natural pitch survives the trip through its MIDI number |
| Pitches.FromMidiPitchViaText | lib/music.py:224-227 | formatting the table's spelling with the octave and reading it back gives `from_midi_pitch(m)` |
| Pitches.FromMidiPitch42 | lib/music.py:224-227 | MIDI 42 is spelled F sharp 2 |
| Pitches.PitchFromString | lib/music.py:197-209 | a pitch read from text has at least two characters and its letter is the first one |
| Pitches.PitchToString | lib/music.py:211-213 | the text is the letter, then a character that reads as an accidental iff the pitch is not natural, and ends with the octave's text |
| Pitches.PitchStringRoundTrip | lib/music.py:197-213 | `Pitch.from_str(str(p)) == p` for every pitch, negative octaves included |
| Pitches.NumLexOrdIsLexicographic | lib/music.py:257-266 | the key orders by staff position, then by accidental offset, and two pitches share a key iff they are equal |
| Pitches.NumLexOrd | lib/music.py:257-266 | the key of a pitch of octave `o` lies within 120·o - 2 .. 120·o + 62, so octaves never interleave |
| Pitches.PyAccidentalIndex | lib/music.py:275 | `ACCIDENTALS[k]` succeeds iff -5 <= k < 5, negative indices counting from the end |
| Pitches.TransposedAsWritten | lib/music.py:268-281 | the result sounds `halftones` above the start, except for a needed offset of -3..-7, where it lies on the target staff position five semitones too high |
| Pitches.Transposed | lib/music.py:268-281 | the result sounds `halftones` above the start; when an accidental of offset -2..2 suffices it sits on the target staff position with that offset, otherwise it is spelled from the MIDI table |
| Pitches.TransposedVersionsAgree | lib/music.py:268-281 | the code as written and the corrected version agree except when the needed offset is -3..-7 |
| Pitches.TransposedSpelledOn | lib/music.py:268-276 | whenever an accidental spells the correct pitch on the target position, the result is that spelling |
| Pitches.TransposedFallsBack | lib/music.py:277-281 | outside double flat..double sharp the result is `from_midi_pitch` of the correct MIDI number |
| Pitches.TransposedAsWrittenWraps | lib/music.py:274-276 | for a needed offset of -3..-7 the code as written picks the accidental five places up the list |
| Pitches.DiminishedOctaveFromADoubleFlat | tests/test_music.py:91 | the numbers of A double-flat 1 up a diminished octave: 11 semitones, target position of A2, MIDI 31; A2 is 45 and A double-sharp 2 is 47 |
| Pitches.DiminishedOctaveValid | lib/music.py:18-47 | the diminished octave is a constructible interval |
| Pitches.TransposedAsWrittenWrapsNegativeShift | lib/music.py:275 | as written, A double-flat 1 up a diminished octave gives A double-sharp 2 (MIDI 47, not 42) |
| Pitches.TransposedCorrectsNegativeShift | tests/test_music.py:91 | the corrected version gives F sharp 2, as the test expects |
| Pitches.TransposeByUnison | lib/music.py:268-281 | transposing by the unison leaves every pitch unchanged |
| Pitches.TransposePreservesOrder | lib/music.py:268-281 | when both results are spelled on their target positions, transposition keeps the key order |
| Pitches.TransposeThirdsFromC | tests/test_music.py:74-75 | C0 up m3 is E flat 0, and C2 up j3 is E2 |
| Pitches.TransposeThirdToSharp | tests/test_music.py:76 | E2 up j3 is G sharp 2 |
| Pitches.TransposeThirdFromFlat | tests/test_music.py:78 | B flat 1 up j3 is D2 |
| Pitches.TransposeThirdAcrossOctave | tests/test_music.py:79 | B1 up j3 is D sharp 2 |
| Pitches.TransposeFifth | tests/test_music.py:80 | C1 up a fifth is G1 |
| Pitches.TransposeOctave | tests/test_music.py:81 | C1 up an octave is C2 |
| Ranges.RangeLineOfTokens | lib/music.py:331-338 | unpacking fails with ValueError iff there are fewer than two tokens; a leading "!" means not preferred and is removed; the other tokens are joined by single spaces into the description |
| Ranges.SplitRangeLine | lib/music.py:331-336 | unpacking succeeds iff the line has at least two words, else ValueError; the end is the second word, the description the remaining words joined by single spaces, and the range is preferred iff the first word does not start with "!" |
| Ranges.MarkedStartIsAWord | lib/music.py:318-320 | the first token of a formatted line is one word that starts with "!" iff the range is not preferred |
| Ranges.RangeLineTokens | lib/music.py:332 | a formatted line splits into its start, its end and the words of its description |
| Ranges.SplitRangeLineRoundTrip | lib/music.py:318-338 | splitting a formatted line gives back start, end, description and preference |
| Ranges.NewAbsoluteRange | lib/music.py:299-306 | construction succeeds iff the start's key is not above the end's, and otherwise raises AssertionError |
| Ranges.AbsoluteRangeFromString | lib/music.py:331-340 | every range read from text is a valid pitch range |
| Ranges.PitchTextIsAWord | lib/music.py:211-213 | the text of a pitch is one word and never starts with "!" |
| Ranges.AbsoluteRangeStringRoundTrip | lib/music.py:318-340 | `from_str(str(r)) == r` for valid pitch ranges with a single-spaced description |
| Ranges.TransposedRange | lib/music.py:322-328 | the description and preference are kept, each endpoint moves by the interval's semitones, and a failure is AssertionError |
| Ranges.TransposedRangeSucceeds | lib/music.py:322-328 | when both endpoints can be spelled on their target positions, transposing the range succeeds |
| Ranges.NewRelativeRange | lib/music.py:343-352 | construction succeeds iff the start interval's key is not above the end's |
| Ranges.RelativeRangeFromString | lib/music.py:371-379 | every range read from text is a valid interval range |
| Ranges.RelativeRangeStringRoundTrip | lib/music.py:366-379 | `from_str(str(r)) == r` for valid interval ranges with a single-spaced description |
| Instruments.InsertBy | lib/inst_graph.py:232 | insertion adds exactly the new element |
| Instruments.InsertBySorted | lib/inst_graph.py:232 | insertion keeps a list sorted by key |
| Instruments.SortBy | lib/inst_graph.py:232 | the sorted list is a permutation of the input, ordered by key |
| Instruments.SortBySorted | lib/inst_graph.py:232 | sorting an ordered list changes nothing |
| Instruments.SortByElement | lib/inst_graph.py:232 | every element of the sorted list comes from the input |
| Instruments.InsertByWithKey | lib/inst_graph.py:232 | an inserted element goes in front of every element of its own key |
| Instruments.SortByStable | lib/inst_graph.py:232 | `sorted` is stable: for every key, the elements with that key keep their input order |
| Instruments.CheckTouching | lib/inst_graph.py:235-239 | the check loop passes iff every range ends no later than the next one starts |
| Instruments.TouchingChain | lib/inst_graph.py:235-239 | in a checked list every earlier range ends no later than every later range starts |
| Instruments.UnisonIsDefault | lib/inst_graph.py:233 | the default transposition "1" is the valid up unison of zero semitones |
| Instruments.NewInstrument | lib/inst_graph.py:224-239 | construction succeeds iff the ranges sorted by start touch without overlap; the instrument holds them sorted, the transposition or the unison, and the notes or "" |
| Instruments.NewInstrumentGood | lib/inst_graph.py:224-239 | an instrument built from valid ranges and a valid transposition has valid, sorted, touching ranges |
| Instruments.MinSoundingPitch | lib/inst_graph.py:251-252 | the lowest sounding pitch is the first start moved by the transposition; IndexError without ranges |
| Instruments.MaxSoundingPitch | lib/inst_graph.py:254-255 | the highest sounding pitch is the last end moved by the transposition; IndexError without ranges |
| Instruments.MinNotAboveMax | lib/inst_graph.py:251-255 | in a constructed instrument the lowest sounding pitch does not sort above the highest |
| Instruments.SoundingRanges | lib/inst_graph.py:257-262 | every range is transposed endpoint-wise, in order and with the same count; any failure is AssertionError |
| Instruments.SoundingOf | lib/inst_graph.py:257-262 | the sounding ranges as a value: one per range, each that range transposed |
| Instruments.SoundingRangesFacts | lib/music.py:322-328 | when the endpoints can be spelled on their target positions, a sounding range exists, keeps description and preference, sounds the transposition higher and ends on the target position |
| Instruments.NewStringedInst | lib/inst_graph.py:19-36 | like `NewInstrument` for interval ranges; the open strings are sorted by key |
| Instruments.StringedIntervalsFit | lib/inst_graph.py:19-36 | a stringed instrument built from valid ranges and a valid transposition can measure every interval in semitones |
| Instruments.MinStringedPitch | lib/inst_graph.py:49-54 | the lowest open string moved by the first range start and the transposition; IndexError without strings or ranges |
| Instruments.MaxStringedPitch | lib/inst_graph.py:56-61 | the highest open string moved by the last range end and the transposition; IndexError without strings or ranges |
| Instruments.StringNotes | lib/inst_graph.py:79-86 | one row per open string and one note per head; each note sounds the open string plus the head's and the transposition's semitones |
| Instruments.StringedChartGlyphs | lib/inst_graph.py:76-124 | the heads and fills are exactly those `calc_note_heads_relative` gives for the instrument's ranges, and every string gets the glyphs of the per-string loop |
| Instruments.ChartGlyphs | lib/inst_graph.py:277-285 | succeeds iff every range can be transposed, else AssertionError; the heads and fills are exactly those `calc_note_heads` gives for the sounding ranges, and each head gets the `find_accidentals` glyph |
| Instruments.ParseEach | lib/inst_graph.py:265 | succeeds iff every line parses, giving the values in order; otherwise the error is that of the first line that fails, every line before it having parsed |
| Instruments.LinesField | lib/inst_graph.py:265 | `[parse(r) for r in fields[key]]`: KeyError when the field is missing, else every line parsed in order |
| Instruments.TranspositionField | lib/inst_graph.py:267-273 | an absent field means none; a field without exactly one entry raises ValueError; one entry is read as an interval, and the read's outcome is passed on: it succeeds iff the entry reads, and fails with the reader's own error otherwise |
| Instruments.InstrumentFromStrs | lib/inst_graph.py:264-275 | the ranges are read first (KeyError when missing, else the first bad line's error), then the transposition field; it succeeds iff both read and the sorted ranges touch, else AssertionError; the result is exactly the instrument of the given name, the sorted ranges, the transposition or the unison, and the notes or "" |
| Instruments.StringedInstFromStrs | lib/inst_graph.py:64-74 | the transposition field is read first, then the ranges, then the open strings, each failure (KeyError for a missing field) passed on; it succeeds iff all three read and the sorted ranges touch, else AssertionError; the result is exactly the instrument with sorted ranges, the transposition or the unison, the notes or "" and the sorted open strings |
| NoteHeads.MergedCount | lib/inst_graph.py:402-403 | at most `n` of the first `n` ranges end on the next one's start |
| NoteHeads.CalcNoteHeads | lib/inst_graph.py:387-410 | heads and fills have length 2·len - merged; every start is drawn at its index and every unmerged end follows it; start heads are full iff the range or the one before is preferred, end heads iff the range or the one after is; no other value appears, so the result is the only one meeting this description |
| NoteHeads.HeadsOfUnique | lib/inst_graph.py:387-410 | two head and fill lists that both meet the description of the loop's result are equal |
| NoteHeads.HeadIndexGrows | lib/inst_graph.py:390-409 | each range adds two heads, or one when it ends where the next starts |
| NoteHeads.MonotoneHeadIndex | lib/inst_graph.py:390-409 | the head index of a range never decreases along the list |
| NoteHeads.HeadsCovered | lib/inst_graph.py:397-408 | every head index belongs to the start or the drawn end of some range |
| NoteHeads.MergedJunctionFull | lib/inst_graph.py:390-409 | a merged junction is a single head, full iff either neighbour is preferred |
| NoteHeads.DropNatural | lib/inst_graph.py:425-429 | the glyph is empty iff the accidental is natural, and otherwise is that accidental |
| NoteHeads.FindAccidentals | lib/inst_graph.py:413-431 | one glyph per head, each the rule's glyph for that head |
| NoteHeads.GlyphIsOwnAccidental | lib/inst_graph.py:413-431 | every glyph is empty or the head's own accidental, and a natural sign appears only after a head on the same position with a different accidental |
| NoteHeads.RepeatedAccidentalHidden | lib/inst_graph.py:416-423 | on the predecessor's staff position the glyph is empty iff the accidental repeats |
| NoteHeads.StaffPositions | lib/inst_graph.py:88-90 | one staff position per pitch |
| NoteHeads.FindAccidentalsReadBack | lib/inst_graph.py:413-431 | the glyphs and staff positions determine every head's accidental |
| NoteHeads.PositionTable | lib/inst_graph.py:88-90 | one row of staff positions per string |
| NoteHeads.LastInRow | lib/inst_graph.py:105-108 | the last index before `j` in a row holding the position, or none |
| NoteHeads.LastConflict | lib/inst_graph.py:102-108 | the last (string, head) pair on an earlier string at the same position, in loop order, or none when there is no such pair |
| NoteHeads.FindLastConflict | lib/inst_graph.py:102-108 | the nested search loops find exactly that pair |
| NoteHeads.GlyphRows | lib/inst_graph.py:93-124 | the glyph table has one row per string and one glyph per head |
| NoteHeads.StringAccidentals | lib/inst_graph.py:93-124 | the accidental loop computes exactly that table |
| NoteHeads.GlyphRowsPrefix | lib/inst_graph.py:93-124 | a string's glyphs do not change as later strings are added |
| NoteHeads.StringGlyphsReadBack | lib/inst_graph.py:93-124 | every glyph is empty or the head's own accidental, and the chart loses no accidental |
| Staff.LowestLine | lib/__init__.py:41-52 | the lower F clef is drawn iff min(-10, input) < -20; the lowest line is min(-10, input), lowered to -24 with that clef |
| Staff.HighestLine | lib/__init__.py:55-66 | the upper G clef is drawn iff max(10, input) > 20; the highest line is max(10, input), raised to 24 with that clef |
| Staff.LinesMirror | lib/__init__.py:41-66 | the two computations are mirror images around middle C |
| Staff.StyleAt | lib/__init__.py:81-92 | a line is full iff it lies within 10 of middle C and is not middle C, or lies in an activated extra clef |
| Staff.StyleFacts | lib/__init__.py:81-92 | middle C is always secondary, and so are the gaps between the clefs |
| Staff.StaffLines | lib/__init__.py:78-92 | exactly the even positions from the lowest to the highest line are drawn, in order, each in the rule's style |
| Staff.FullExtent | lib/__init__.py:162-163 | the full barlines end on the outermost full lines: 24 with the upper G clef, else 10, and -24 with the lower F clef, else -10 |
| Staff.FullExtentWithinStaff | lib/__init__.py:152-163 | the full barlines never leave the drawn staff |
| Staff.Columns | lib/__init__.py:176-195 | instrument `i` starts at `CLEF_OFFSET + CLEF_WIDTH + i·INST_WIDTH`, with one separator between each pair of neighbours |
| Staff.SeqMin | lib/__init__.py:152-154 | `min` of a non-empty list is an element no greater than any; ValueError when empty |
| Staff.SeqMax | lib/__init__.py:157-159 | `max` of a non-empty list is an element no smaller than any; ValueError when empty |
| Staff.GenerateExtent | lib/__init__.py:152-163 | ValueError iff a list is empty; otherwise the lowest line and lower clef are `calc_lowest_line(min(...))`, the highest line and upper clef `calc_highest_line(max(...))`, so the staff covers every instrument, and the full extent lies inside it around middle C |
| Tiles.Ceil | lib/__init__.py:314 | `ceil(x)` is the integer n with n - 1 < x <= n |
| Tiles.TileCount | lib/__init__.py:314-320 | ZeroDivisionError iff fill equals overlap; otherwise the count is the ceiling of (content - overlap) / (fill - overlap) |
| Tiles.TileCountMinimal | lib/__init__.py:314-345 | with fill > overlap, n windows of stride fill - overlap reach the content and n - 1 do not |
| Tiles.CalcTiles | lib/__init__.py:304-345 | the given orientation is kept iff it needs no more pages; otherwise the format is turned; strides are fill - overlap and the offsets centre the content |
| Tiles.Offset | lib/__init__.py:334-339 | the centring offset leaves the same margin before the content as after it |
| Tiles.AxisCovers | lib/__init__.py:334-345 | the centring offset is not negative, the last window ends as far past the content as the first starts before it, and neighbouring windows overlap by exactly the overlap |
| Tiles.AxisPointCovered | lib/__init__.py:376-379 | every point of the content lies in the window of some page |
| Tiles.SmallContentGetsNoTiles | lib/__init__.py:314 | content no wider than the overlap gets no page at all |
| Tiles.TileAtFacts | lib/__init__.py:376-379 | guide lines mark exactly the pages with a right or lower neighbour, and neighbouring windows are one stride apart |
| Tiles.TileAt | lib/__init__.py:372-428 | page (x, y) has its window x strides right and y strides down from the first, and a right (lower) guide iff another page follows to its right (below) |
| Tiles.SplitIntoTiles | lib/__init__.py:348-441 | the pages are listed column by column, each column top to bottom, page (x, y) being the window at its origin |
| Parser.Cleaned | lib/parser.py:4-8 | the kept lines are non-empty and no more than the input lines |
| Parser.CleanLineShape | lib/parser.py:5-6 | a kept line holds no "//" and no surrounding whitespace |
| Parser.CleanLines | lib/parser.py:4-8 | the reading loop keeps exactly the cleaned lines |
| Parser.HeaderValues | lib/parser.py:29 | the stripped, non-empty parts after the first colon |
| Parser.ParseLines | lib/parser.py:17-54 | the loop computes the name and fields of the state machine, with its errors |
| Parser.Step | lib/parser.py:23-50 | a value line succeeds iff a block is open and is appended to it; every error is ValueError, and no stored field is dropped |
| Parser.Run | lib/parser.py:22-50 | every error is ValueError, and the fields stored before are still stored after |
| Parser.ParseSpec | lib/parser.py:17-54 | no lines raise IndexError and every other error is ValueError; a result's name is the first line and the other lines run without error |
| Parser.RunStopsAtError | lib/parser.py:22-50 | the first failing line decides the result |
| Parser.RunAppend | lib/parser.py:22-50 | running two pieces in turn is running their concatenation |
| Parser.RunKeepsLowerKeys | lib/parser.py:31-33 | every key stored along the way is lowercase |
| Parser.ParseKeysLower | lib/parser.py:17-54 | every key of the result is lowercase |
| Parser.ParseErrors | lib/parser.py:18-49 | no lines raises IndexError, and a value line before any header raises ValueError |
| Parser.TooManyValuesFails | lib/parser.py:36-40 | a header with two or more values raises ValueError wherever it stands |
| Parser.BlockCollects | lib/parser.py:41-50 | colon-free lines are appended, in order, to the open block |
| Parser.RunKeepsTidy | lib/parser.py:22-50 | without an open block the collected list is empty |
| Parser.HeaderOpensBlock | lib/parser.py:23-31 | "title:" stores the open block, even if empty, and opens the lowercased title |
| Parser.BlockStored | lib/parser.py:23-53 | "title:" followed by colon-free lines stores exactly those lines under the lowercased title, at the end included |
| Parser.OneValueHeader | lib/parser.py:32-35 | "title: words" stores the whitespace tokens under the lowercased title and leaves no block open |
| Parser.RepeatedKeyOverwrites | lib/parser.py:32-35 | a later header for the same key replaces the earlier value |
| Prototype.ProtoNewInterval | music/__init__.py:6-19 | construction succeeds iff number >= 1 and the quality suits the degree; the interval keeps its direction; failures are AssertionError |
| Prototype.ProtoIntervalAcceptsMore | music/__init__.py:6-19 | every interval the library accepts the prototype accepts, equal except for the down unison; d1 is accepted only by the prototype |
| Prototype.UpwardDiminishedUnisonGoesDown | music/__init__.py:55-99 | the d1 the prototype accepts spans -1 semitones although it points up |
| Prototype.ProtoIntervalFromString | music/__init__.py:24-45 | every interval read from text passes the prototype's checks |
| Prototype.ProtoIntervalStringRoundTrip | music/__init__.py:24-45 | reading the library's text form gives back any interval the prototype accepts |
| Prototype.ProtoReprReadsBackIffUp | music/__init__.py:47-50 | the prototype's `repr` puts "-" after the number, so it reads back for up intervals and raises ValueError for down ones |
| Prototype.ProtoIntervalRepr | music/__init__.py:47-50 | the prototype's `repr` is one word ending in "-" iff the interval is down |
| Prototype.ProtoPitchFromString | music/__init__.py:109-120 | a pitch read from text has at least two characters and its letter is the first one |
| Prototype.ProtoPitchToString | music/__init__.py:122-123 | the text is the letter, the accidental's own character ("n" included), then the octave's text |
| Prototype.ProtoPitchStringRoundTrip | music/__init__.py:109-123 | `from_str(str(p)) == p` for every pitch |
| Prototype.ProtoPitchTextsAgreeIff | music/__init__.py:122-123 | the prototype's text equals the library's iff the pitch is not natural; E0 prints "En0" |
| Prototype.ProtoReadsLibraryText | music/__init__.py:109-120 | the prototype reads the library's text iff the octave is not negative or the pitch is not natural, else AssertionError |
| Prototype.ProtoReadsNaturalText | music/__init__.py:109-120 | the library's text of a natural pitch reads back for octaves >= 0 and raises AssertionError for negative ones |
| Prototype.NegativeOctaveNatural | music/__init__.py:113-116 | "C-1" is C in octave -1 for the library and an AssertionError for the prototype |
| Prototype.ProtoFromMidi | music/__init__.py:133-137 | succeeds iff m >= 12 or the spelling is not natural; the pitch equals the library's and sounds at `m`; failures are AssertionError |
| Prototype.ProtoFromMidiViaText | music/__init__.py:133-137 | the prototype's result is the text route of the source |
| Prototype.ProtoFromMidiNaturalFails | music/__init__.py:133-137 | every natural pitch class below MIDI 12 fails |
| Prototype.ProtoMidiRoundTripNatural | music/__init__.py:125-137 | natural pitches with octave >= 0 survive the trip through their MIDI number |
| Prototype.ProtoTransposed | music/__init__.py:155-167 | a success equals the library's code as written; a failure is AssertionError |
| Prototype.ProtoTransposedSpelled | music/__init__.py:155-167 | for a needed offset in -2..2 the prototype meets the library's staff and MIDI postcondition |
| Prototype.ProtoSpelledOn | music/__init__.py:161-163 | whenever an accidental spells the correct pitch on the target position, the prototype returns that spelling |
| Prototype.ProtoTransposedFails | music/__init__.py:164-167 | the fallback fails when the correct pitch is a natural below MIDI 12 |
| Prototype.TripleSharpNeeded | music/__init__.py:155-167 | C double-sharp -1 up an augmented second needs offset 3 and sounds at F -1 |
| Prototype.ProtoTransposedFallbackFails | music/__init__.py:164-167 | that transposition makes the prototype's fallback fail |
| Prototype.ProtoMajorThirdPrintsNatural | music/__init__.py:324 | C0 up j3 is E0, which the prototype prints as "En0" |
| Prototype.AccidentalIndex | music/__init__.py:174 | `ACCIDENTALS.index(a)` is below five and holds `a`'s character |
| Prototype.ProtoLess | music/__init__.py:172-175 | `<` holds iff the library's key of the first pitch is smaller |
| Prototype.ProtoLessIsKeyOrder | music/__init__.py:172-175 | `<` and `<=` (`<` or `==`) order pitches as the library's key does |
| Prototype.ProtoLessStrictTotal | music/__init__.py:169-175 | `<` is irreflexive, transitive and total with respect to `==` |
| Prototype.NewPartialRange | music/__init__.py:179-184 | construction succeeds iff start <= end, else AssertionError |
| Prototype.PartialRangeIsAbsoluteRange | music/__init__.py:179-184 | a partial range is built exactly when the library's pitch range is |
| Prototype.PartialRangeFromString | music/__init__.py:202-211 | every range read from text is a valid pitch range |
| Prototype.ProtoPitchTextIsAWord | music/__init__.py:122-123 | the prototype's pitch text is one word and never starts with "!" |
| Prototype.PartialRangeStringRoundTrip | music/__init__.py:190-211 | `from_str(str(r)) == r` for valid ranges with a single-spaced description |
| Prototype.ProtoTransposedRange | music/__init__.py:194-200 | description and preference are kept, endpoints move as the code as written moves them, failures are AssertionError |
| Prototype.NewProtoInstrument | music/__init__.py:215-227 | construction succeeds iff no two ranges share a start and the sorted ranges touch without overlap; the sort's comparison asserts distinct starts |
| Prototype.ProtoCheckOrder | music/__init__.py:224-227 | the check loop passes iff every range ends no later than the next starts |
| Prototype.ProtoMinSoundingPitch | music/__init__.py:236-237 | the first start transposed; IndexError without ranges |
| Prototype.ProtoMaxSoundingPitch | music/__init__.py:239-240 | the last end transposed; IndexError without ranges |
| Prototype.ProtoSoundingRanges | music/__init__.py:242-246 | every range is transposed, in order and with the same count; any failure is AssertionError |
| Prototype.SharedStartOnlyProtoRejects | music/__init__.py:186-188 | [C4 C4, C4 D4] is sorted and touching, so the library accepts it, but it shares a start, which the prototype's sort rejects |

## Left out

- SVG output is not modelled; it consists of calls into the drawing library.
  - This covers notes, range lines, clefs, double barlines, titles and description texts.
  - It also covers cut marks, masks and the drawing objects of `split_into_tiles`.
  - The y extent and height of `generate_staff` depend on text sizes of the drawing, and are left out too.
- Float spacing is not modelled:
  - `calc_positions` and the stringed `x_step`;
  - the vector helpers of `lib/utils.py` and `utils.py`;
  - `to_freq` / `from_freq`.
  `calc_tiles` is modelled over exact reals, so float rounding is not captured.
- File and command-line I/O are not modelled:
  - the `open` in `parse` (its reading loop over lines is modelled);
  - `from_names`, `Instrument.from_file` of the prototype, `main.py`;
  - `test_tiles` (random numbers, file output) and `tests/elems_test.py`.
- `parse_str`'s `splitlines` is not modelled; `__parse_lines` takes the list of lines.
- The `print` calls in `transposed` and in the parser are left out; they have no effect on results.
- `display_name` is not modelled; it depends on `lib/consts.py`, which is not part of this model.
- `__str__` of the instruments, and of the prototype's `PartialRange` beyond its range line, are not modelled. They only format text for display.
- Python's `sorted` is modelled as a stable sort by start key:
  - Instruments.SortBy: the library's `__lt__` assertions, and the order in which the sort would call them, are not modelled.
  - The constructors' check loop catches any overlap in the sorted list.
  - In the prototype, the one assertion of `PartialRange.__lt__` is modelled as "no two starts are equal". A comparison sort compares every pair of neighbours in its result, and the check is stated that way.
- Lower (Text): covers ASCII letters only; Unicode case mapping is not modelled.
- SplitWs (Text): treats as whitespace exactly the ASCII characters Python's `str.isspace` accepts (space, 0x09..0x0D and 0x1C..0x1F). Non-ASCII whitespace such as U+0085, U+00A0 and U+2000..U+200A is not modelled.
- LStrip (Text): strips only the whitespace of `Text.IsSpace` (space, 0x09..0x0D and 0x1C..0x1F); a leading U+00A0 or other non-ASCII whitespace is kept.
- RStrip (Text): strips only the whitespace of `Text.IsSpace`; a trailing U+00A0 or other non-ASCII whitespace is kept.
- Strip (Text): strips only the whitespace of `Text.IsSpace` at either end; non-ASCII whitespace such as U+00A0 is kept.
- WordLength (Text): a word ends only at a character of `Text.IsSpace`; non-ASCII whitespace such as U+00A0 stays inside the word.
- ParseInt (Text): `int()` is modelled as an optional sign followed by ASCII digits. Underscores, Unicode digits and surrounding whitespace are not modelled; the core only passes it tokens from `split()`.
- TransposedRange: both ends are transposed with the corrected transposition `Pitches.Transposed` (see the Findings row for lib/music.py:275), not the code as written. For a needed accidental offset of -3..-7 it gives the MIDI-table spelling of the right pitch, where the code as written gives the wrapped accidental: A double-flat 1 up a diminished octave is F sharp 2 here and A double-sharp 2 as written. `Pitches.TransposedAsWritten` models the written behaviour.
- MinSoundingPitch: the lowest sounding pitch is transposed as in Ranges.TransposedRange, so for needed offsets -3..-7 it is the corrected pitch, not the wrapped spelling of the code as written.
- MaxSoundingPitch: the highest sounding pitch is transposed as in Ranges.TransposedRange, so for needed offsets -3..-7 it is the corrected pitch, not the wrapped spelling of the code as written.
- SoundingRanges: every range is transposed with Ranges.TransposedRange, so for needed offsets -3..-7 the ends are the corrected pitches, not the wrapped spellings of the code as written.
- SoundingOf: every range is transposed with Ranges.TransposedRange, so for needed offsets -3..-7 the ends are the corrected pitches, not the wrapped spellings of the code as written.
- ChartGlyphs: draws the ranges of Instruments.SoundingOf, so for needed offsets -3..-7 its heads and glyphs are those of the corrected pitches, not of the wrapped spellings of the code as written.
- MinStringedPitch: both transpositions (open string, then instrument) use `Pitches.Transposed`, so for needed offsets -3..-7 it is the corrected pitch, not the wrapped spelling of the code as written.
- MaxStringedPitch: both transpositions (open string, then instrument) use `Pitches.Transposed`, so for needed offsets -3..-7 it is the corrected pitch, not the wrapped spelling of the code as written.
- StringNotes: both transpositions (open string, then instrument) use `Pitches.Transposed`, so for needed offsets -3..-7 every note is the corrected pitch, not the wrapped spelling of the code as written.
- NewStringedInst: does not model the assertions of `RelativeRange.__lt__` (lib/music.py:354-364) that `sorted` runs. They reject a comparison `a < b` where `a` starts no later than `b` and the two overlap or touch, so whether they raise depends on the order in which the sort compares. The model returns Ok where Python raises AssertionError. For example, for ranges listed as [j3 5, 1 j3], the sort compares `(1 j3) < (j3 5)`, which raises, while the model accepts the touching pair. Listed in ascending order, the same ranges are accepted by both.
- StringedInstFromStrs: builds through `NewStringedInst`, so it returns Ok where the `RelativeRange.__lt__` assertions inside `sorted` raise AssertionError, as in the line above.
- StringedChartGlyphs: its glyph rows are those of `Instruments.StringNotes`, so for needed offsets -3..-7 they are computed from the corrected pitches, not from the wrapped spellings of the code as written.
- The prototype `Instrument.generate_s_pitch_ranges` (`instr_graph` in `__main__.py`) is not written separately. Its heads and glyphs are `NoteHeads.CalcNoteHeads` and `NoteHeads.FindAccidentals` applied to `Prototype.ProtoSoundingRanges`.

## Findings

| source | as written | input that shows it | evidently intended | confidence | as-written member | corrected member |
|---|---|---|---|---|---|---|
| lib/music.py:275 | `ACCIDENTALS[additional_shift + 2]` uses Python's negative indexing, so a needed offset of -3..-7 picks an accidental from the end of the list instead of raising IndexError and falling back | A double-flat 1 up a diminished octave: the needed offset is -3, and the result is A double-sharp 2 (MIDI 47 instead of 42) | fall back to `from_midi_pitch`, giving F sharp 2, as tests/test_music.py:91 expects | not executed | Pitches.TransposedAsWrittenWrapsNegativeShift | Pitches.TransposedCorrectsNegativeShift |
| music/__init__.py:122-123 | the prototype's `__str__` always writes the accidental, "n" included | C0 up a major third is E0, printed "En0" | "E0", as the prototype's own test at music/__init__.py:324 expects and as the library prints it | not executed | Prototype.ProtoMajorThirdPrintsNatural | Pitches.PitchStringRoundTrip |
