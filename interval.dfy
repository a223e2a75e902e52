/** Musical intervals: construction rules, semitone counts, the canonical
    interval for a semitone count, and the text form `[-][modifier]number`
    (lib/music.py, class Interval). */
module Intervals {
  import opened Wrappers
  import opened Text
  import opened Consts

  /** `number` is the scale-degree distance (1 = unison); `down` the
      direction; `modifier` the quality. */
  datatype Interval = Interval(number: int, down: bool, modifier: Modifier)

  /** The degree folded into one octave, 1..7. */
  function NormalizedNumber(number: int): (k: int)
    ensures 1 <= k <= 7
  {
    (number - 1) % 7 + 1
  }

  /** Unisons, fourths and fifths take no major/minor quality. */
  predicate PerfectFamily(number: int) {
    NormalizedNumber(number) in {1, 4, 5}
  }

  /** The degree/modifier compatibility the constructor enforces. */
  predicate Fits(number: int, m: Modifier) {
    if PerfectFamily(number) then m != Major && m != Minor else m != Perfect
  }

  /** `dir * x`, with `dir` the interval's direction, -1 down and 1 up. */
  function Directed(i: Interval, x: int): int {
    if i.down then -x else x
  }

  /** The semitones of the major scale's degrees 1..7 above its tonic. */
  function MajorScaleStep(k: int): int
    requires 1 <= k <= 7
  {
    [0, 2, 4, 5, 7, 9, 11][k - 1]
  }

  /** How far a quality moves a degree from its size in the major scale. */
  function QualityShift(perfectFamily: bool, m: Modifier): int {
    match m
    case Perfect => 0
    case Major => 0
    case Minor => -1
    case Augmented => 1
    case Diminished => if perfectFamily then -1 else -2
  }

  /** The unsigned semitone count of a degree with a quality: whole octaves,
      then the major-scale size of the degree, moved by the quality. */
  function BaseHalftones(number: int, m: Modifier): (r: int)
    requires Fits(number, m)
    ensures r == 12 * ((number - 1) / 7) + MajorScaleStep(NormalizedNumber(number)) + QualityShift(PerfectFamily(number), m)
  {
    var octave := (number - 1) / 7;
    var k := NormalizedNumber(number);
    var shift :=
      if PerfectFamily(number) then
        (if k == 1 then 0 else if k == 4 then 5 else 7)
        + (match m case Augmented => 1 case Diminished => -1 case _ => 0)
      else
        (if k == 2 then 1 else if k == 3 then 3 else if k == 6 then 8 else 10)
        + (match m case Diminished => -1 case Major => 1 case Augmented => 2 case _ => 0);
    shift + octave * 12
  }

  /** `to_halftones`: the signed number of semitones the interval spans;
      apart from the diminished unison, its sign follows the direction. */
  function ToHalftones(i: Interval): (r: int)
    requires Fits(i.number, i.modifier)
    ensures i.number >= 1 && !(i.number == 1 && i.modifier == Diminished) ==> (if i.down then r <= 0 else r >= 0)
    ensures r == BaseHalftones(i.number, i.modifier) || r == -BaseHalftones(i.number, i.modifier)
  {
    var r := Directed(i, BaseHalftones(i.number, i.modifier));
    if i.number >= 1 then BasePositive(i.number, i.modifier); r else r
  }

  /** `Interval(number, down, modifier)`: validates and normalises the
      direction of a plain unison; `None` stands for "no modifier". */
  function NewInterval(number: int, down: bool, modifier: Option<Modifier>): (r: Result<Interval>)
    ensures r.Ok? ==> r.value.number == number && r.value.modifier == modifier.GetOr(Perfect)
  {
    var m := modifier.GetOr(Perfect);
    if number < 1 then Err(ValueError)
    else if PerfectFamily(number) && (m == Major || m == Minor) then Err(ValueError)
    else if !PerfectFamily(number) && m == Perfect then Err(ValueError)
    else
      var d := if number == 1 && m == Perfect then false else down;
      var i := Interval(number, d, m);
      if d != (ToHalftones(i) < 0) && ToHalftones(i) != 0 then Err(ValueError) else Ok(i)
  }

  /** The intervals the constructor can produce. */
  predicate Valid(i: Interval) {
    NewInterval(i.number, i.down, Some(i.modifier)) == Ok(i)
  }

  /** Construction fails exactly for a number below one, a quality the
      degree cannot take, or a diminished unison (whose semitone count
      contradicts its direction either way); the direction of a plain
      unison is always reset to up. */
  lemma NewIntervalOutcome(number: int, down: bool, modifier: Option<Modifier>)
    ensures var m := modifier.GetOr(Perfect);
            NewInterval(number, down, modifier).Err? <==>
              number < 1 || !Fits(number, m) || (number == 1 && m == Diminished)
    ensures var m := modifier.GetOr(Perfect);
            NewInterval(number, down, modifier).Ok? ==>
              NewInterval(number, down, modifier).value.down == (down && !(number == 1 && m == Perfect))
  {
    var m := modifier.GetOr(Perfect);
    if number >= 1 && Fits(number, m) {
      var d := if number == 1 && m == Perfect then false else down;
      var i := Interval(number, d, m);
      BasePositive(number, m);
    }
  }

  /** The unsigned semitone count is positive except for the unison family:
      zero for a plain unison and a diminished second, negative only for a
      diminished unison. */
  lemma BasePositive(number: int, m: Modifier)
    requires number >= 1 && Fits(number, m)
    ensures BaseHalftones(number, m) < 0 <==> number == 1 && m == Diminished
    ensures BaseHalftones(number, m) == 0 ==> number <= 2
  {
    if number > 7 {
      assert (number - 1) / 7 >= 1;
    } else {
      assert (number - 1) / 7 == 0;
    }
  }

  /** The validity rule written out. */
  lemma ValidIff(i: Interval)
    ensures Valid(i) <==>
              && i.number >= 1
              && Fits(i.number, i.modifier)
              && !(i.number == 1 && i.modifier == Diminished)
              && !(i.number == 1 && i.modifier == Perfect && i.down)
  {
    NewIntervalOutcome(i.number, i.down, Some(i.modifier));
  }

  /** Whatever the constructor builds is valid: building it again from its
      own fields gives it back. */
  lemma NewIntervalValid(number: int, down: bool, modifier: Option<Modifier>)
    ensures NewInterval(number, down, modifier).Ok? ==> Valid(NewInterval(number, down, modifier).value)
  {
    NewIntervalOutcome(number, down, modifier);
    var r := NewInterval(number, down, modifier);
    if r.Ok? {
      ValidIff(r.value);
    }
  }

  // ---------------------------------------------------------------- text form

  /** The fields `Interval.from_str` reads before it calls the constructor. */
  datatype IntervalText = IntervalText(number: int, down: bool, modifier: Option<Modifier>)

  /** The reading step of `Interval.from_str`: an optional '-', an optional
      modifier letter, then the number; nothing left after the '-' is an
      IndexError and an unreadable number a ValueError. */
  function ReadIntervalText(s: string): (r: Result<IntervalText>)
    ensures r.Err? ==> r.error == IndexError || r.error == ValueError
    ensures r.Ok? ==> (r.value.down <==> |s| > 0 && s[0] == '-')
  {
    var down := |s| > 0 && s[0] == '-';
    var rest := if down then s[1..] else s;
    if |rest| == 0 then Err(IndexError)
    else
      var modifier := ModifierOfChar(rest[0]);
      var digits := if modifier.Some? then rest[1..] else rest;
      match ParseInt(digits)
      case None => Err(ValueError)
      case Some(n) => Ok(IntervalText(n, down, modifier))
  }

  /** `Interval.from_str`: read the fields, then construct. */
  function IntervalFromString(s: string): (r: Result<Interval>)
    ensures r.Ok? ==> Valid(r.value)
  {
    var t :- ReadIntervalText(s);
    NewIntervalValid(t.number, t.down, t.modifier);
    NewInterval(t.number, t.down, t.modifier)
  }

  /** `repr(interval)`: "-" when down, the modifier unless perfect, the
      number; the text is one word that starts with "-" exactly for a
      downward interval. */
  function IntervalToString(i: Interval): (r: string)
    ensures |IntToString(i.number)| <= |r| && NoSpace(r) && r[0] != '!'
    ensures i.number >= 0 ==> (r[0] == '-' <==> i.down)
    ensures r[|r| - |IntToString(i.number)|..] == IntToString(i.number)
  {
    IntModifierTable();
    var num := IntToString(i.number);
    var prefix := (if i.down then "-" else "") + (if i.modifier == Perfect then "" else [ModifierChar(i.modifier)]);
    assert forall k :: |prefix| <= k < |prefix + num| ==> (prefix + num)[k] == num[k - |prefix|];
    (if i.down then "-" else "")
    + (if i.modifier == Perfect then "" else [ModifierChar(i.modifier)])
    + IntToString(i.number)
  }

  /** The modifier as the text form spells it: none for perfect. */
  function WrittenModifier(m: Modifier): (w: Option<Modifier>)
    ensures w.GetOr(Perfect) == m
  {
    if m == Perfect then None else Some(m)
  }

  /** The text form of an interval with a positive number reads back as its
      own fields. */
  lemma ReadIntervalTextRoundTrip(i: Interval)
    requires i.number >= 1
    ensures ReadIntervalText(IntervalToString(i)) == Ok(IntervalText(i.number, i.down, WrittenModifier(i.modifier)))
  {
    IntToStringRoundTrip(i.number);
    var num := IntToString(i.number);
    var rest := (if i.modifier == Perfect then "" else [ModifierChar(i.modifier)]) + num;
    assert IntervalToString(i) == (if i.down then "-" else "") + rest;
    ReadUnsignedIntervalText(i, num, rest);
    if i.down {
      assert IntervalToString(i)[1..] == rest;
    }
  }

  /** The part after the sign: the modifier, if any, then the number. */
  lemma ReadUnsignedIntervalText(i: Interval, num: string, rest: string)
    requires i.number >= 1 && num == IntToString(i.number) && ParseInt(num) == Some(i.number)
    requires rest == (if i.modifier == Perfect then "" else [ModifierChar(i.modifier)]) + num
    ensures |rest| > 0 && rest[0] != '-'
    ensures ModifierOfChar(rest[0]) == WrittenModifier(i.modifier)
    ensures ParseInt(if i.modifier == Perfect then rest else rest[1..]) == Some(i.number)
  {
    if i.modifier == Perfect {
      assert rest == num;
      assert IsDigit(rest[0]);
    } else {
      assert rest[0] == ModifierChar(i.modifier);
      assert rest[1..] == num;
    }
  }

  /** Every constructible interval reads back from its text form. */
  lemma IntervalStringRoundTrip(i: Interval)
    requires Valid(i)
    ensures IntervalFromString(IntervalToString(i)) == Ok(i)
  {
    ValidIff(i);
    ReadIntervalTextRoundTrip(i);
  }

  /** "1" and "-1" both denote the upward unison, and "d1" is rejected. */
  lemma UnisonText()
    ensures IntervalFromString("1") == Ok(Interval(1, false, Perfect))
    ensures IntervalFromString("-1") == Ok(Interval(1, false, Perfect))
    ensures IntervalFromString("d1") == Err(ValueError)
  {
    UnisonTextsRead();
    NewIntervalOutcome(1, false, None);
    NewIntervalOutcome(1, true, None);
    NewIntervalOutcome(1, false, Some(Diminished));
  }

  /** The fields read from "1", "-1" and "d1". */
  lemma UnisonTextsRead()
    ensures ReadIntervalText("1") == Ok(IntervalText(1, false, None))
    ensures ReadIntervalText("-1") == Ok(IntervalText(1, true, None))
    ensures ReadIntervalText("d1") == Ok(IntervalText(1, false, Some(Diminished)))
  {
    assert ParseInt("1") == Some(1) by {
      assert AllDigits("1") && "1"[..0] == "";
    }
    assert ModifierOfChar('1') == None;
    assert "-1"[1..] == "1";
    assert "d1"[1..] == "1";
  }

  // ---------------------------------------------------------------- halftones

  lemma DivMod7(q: int, k: int)
    requires 0 <= k < 7
    ensures (7 * q + k) / 7 == q && (7 * q + k) % 7 == k
  {
  }

  lemma DivMod12(q: int, k: int)
    requires 0 <= k < 12
    ensures (12 * q + k) / 12 == q && (12 * q + k) % 12 == k
  {
  }

  /** `from_halftones`: the canonical interval for a signed semitone count. */
  function FromHalftones(n: int): (r: Interval)
    ensures Valid(r)
    ensures ToHalftones(r) == n
  {
    var down := n < 0;
    var a := if n < 0 then -n else n;
    var octave := a / 12;
    var pc := a % 12;
    var r :=
      if pc == 0 then Interval(octave * 7 + 1, down, Perfect)
      else if pc == 1 then Interval(octave * 7 + 2, down, Minor)
      else if pc == 2 then Interval(octave * 7 + 2, down, Major)
      else if pc == 3 then Interval(octave * 7 + 3, down, Minor)
      else if pc == 4 then Interval(octave * 7 + 3, down, Major)
      else if pc == 5 then Interval(octave * 7 + 4, down, Perfect)
      else if pc == 6 then Interval(octave * 7 + 4, down, Augmented)
      else if pc == 7 then Interval(octave * 7 + 5, down, Perfect)
      else if pc == 8 then Interval(octave * 7 + 6, down, Minor)
      else if pc == 9 then Interval(octave * 7 + 6, down, Major)
      else if pc == 10 then Interval(octave * 7 + 7, down, Minor)
      else Interval(octave * 7 + 7, down, Major);
    FromHalftonesFacts(n, octave, pc, r);
    r
  }

  lemma FromHalftonesFacts(n: int, octave: int, pc: int, r: Interval)
    requires octave == (if n < 0 then -n else n) / 12 && pc == (if n < 0 then -n else n) % 12
    requires r.down == (n < 0)
    requires r.number == octave * 7 + (if pc == 0 then 1 else if pc <= 2 then 2 else if pc <= 4 then 3
                                        else if pc <= 6 then 4 else if pc == 7 then 5 else if pc <= 9 then 6 else 7)
    requires r.modifier == (if pc in {0, 5, 7} then Perfect else if pc == 6 then Augmented
                             else if pc in {1, 3, 8, 10} then Minor else Major)
    ensures Fits(r.number, r.modifier) && ToHalftones(r) == n && Valid(r)
  {
    var k := r.number - octave * 7 - 1;
    DivMod7(octave, k);
    assert (r.number - 1) / 7 == octave && NormalizedNumber(r.number) == k + 1;
    assert BaseHalftones(r.number, r.modifier) == 12 * octave + pc;
    DivMod12(octave, pc);
    NewIntervalOutcome(r.number, r.down, Some(r.modifier));
  }

  /** `normalize`: the canonical spelling of the same semitone count. */
  function Normalize(i: Interval): (r: Interval)
    requires Fits(i.number, i.modifier)
    ensures Valid(r) && ToHalftones(r) == ToHalftones(i)
  {
    FromHalftones(ToHalftones(i))
  }

  /** Normalising keeps the semitone count and is idempotent. */
  lemma NormalizeFacts(i: Interval)
    requires Fits(i.number, i.modifier)
    ensures Valid(Normalize(i)) && ToHalftones(Normalize(i)) == ToHalftones(i)
    ensures Normalize(Normalize(i)) == Normalize(i)
  {
  }

  /** The semitone table of the source's tests. */
  lemma HalftoneTable()
    ensures ToHalftones(Interval(1, false, Perfect)) == 0
    ensures ToHalftones(Interval(2, false, Minor)) == 1 && ToHalftones(Interval(2, false, Major)) == 2
    ensures ToHalftones(Interval(3, false, Minor)) == 3 && ToHalftones(Interval(3, false, Major)) == 4
    ensures ToHalftones(Interval(4, false, Perfect)) == 5 && ToHalftones(Interval(4, false, Augmented)) == 6
    ensures ToHalftones(Interval(5, false, Diminished)) == 6 && ToHalftones(Interval(5, false, Perfect)) == 7
    ensures ToHalftones(Interval(6, false, Minor)) == 8 && ToHalftones(Interval(6, false, Major)) == 9
    ensures ToHalftones(Interval(7, false, Minor)) == 10 && ToHalftones(Interval(7, false, Major)) == 11
    ensures ToHalftones(Interval(2, false, Diminished)) == 0 && ToHalftones(Interval(2, false, Augmented)) == 3
    ensures ToHalftones(Interval(3, false, Diminished)) == 2 && ToHalftones(Interval(3, false, Augmented)) == 5
    ensures ToHalftones(Interval(6, true, Minor)) == -8 && ToHalftones(Interval(13, false, Minor)) == 20
  {
    WithinOctave(1); WithinOctave(2); WithinOctave(3); WithinOctave(4);
    WithinOctave(5); WithinOctave(6); WithinOctave(7);
    assert (13 - 1) / 7 == 1 && NormalizedNumber(13) == 6 by {
      DivMod7(1, 5);
    }
  }

  /** Degrees of the first octave are their own normal form. */
  lemma WithinOctave(number: int)
    requires 1 <= number <= 7
    ensures (number - 1) / 7 == 0 && NormalizedNumber(number) == number
  {
  }

  /** The normalisations of the source's tests. */
  lemma NormalizeExamples()
    ensures Normalize(Interval(2, false, Diminished)) == Interval(1, false, Perfect)
    ensures Normalize(Interval(2, true, Diminished)) == Interval(1, false, Perfect)
    ensures Normalize(Interval(5, false, Diminished)) == Interval(4, false, Augmented)
    ensures Normalize(Interval(5, true, Diminished)) == Interval(4, true, Augmented)
    ensures Normalize(Interval(3, false, Augmented)) == Interval(4, false, Perfect)
    ensures Normalize(Interval(3, true, Augmented)) == Interval(4, true, Perfect)
  {
    HalftoneExamples();
    assert 6 / 12 == 0 && 6 % 12 == 6 && 5 / 12 == 0 && 5 % 12 == 5;
  }

  lemma HalftoneExamples()
    ensures ToHalftones(Interval(2, false, Diminished)) == 0 && ToHalftones(Interval(2, true, Diminished)) == 0
    ensures ToHalftones(Interval(5, false, Diminished)) == 6 && ToHalftones(Interval(5, true, Diminished)) == -6
    ensures ToHalftones(Interval(3, false, Augmented)) == 5 && ToHalftones(Interval(3, true, Augmented)) == -5
  {
  }

  /** `num_lex_ord`: a sort key for relative ranges; every downward
      interval sorts below every upward one. */
  function IntervalLexOrd(i: Interval): (r: int)
    ensures i.number >= 1 ==> (i.down <==> r < 0)
    ensures i.number >= 1 && i.down ==> r <= -100
    ensures i.number >= 1 && !i.down ==> r >= 100
  {
    Directed(i, i.number * 100 + ModifierIndex(i.modifier))
  }

  /** Among upward intervals the key orders by degree number first. */
  lemma IntervalLexOrdByNumber(i: Interval, j: Interval)
    requires !i.down && !j.down && i.number < j.number
    ensures IntervalLexOrd(i) < IntervalLexOrd(j)
  {
  }
}
