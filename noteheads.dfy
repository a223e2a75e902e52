/** Note heads and accidental glyphs of the chart (lib/inst_graph.py:93-124,
    356-431; the same loops appear in __main__.py:13-49). */
module NoteHeads {
  import opened Wrappers
  import opened Consts
  import opened Pitches
  import opened Ranges

  // ---------------------------------------------------------------- note heads

  /** The end of range `i` is the start of range `i + 1`, so the two share
      one head. */
  predicate Merged<E(==)>(rs: seq<Range<E>>, i: int)
    requires 0 <= i < |rs|
  {
    i < |rs| - 1 && rs[i].end == rs[i + 1].start
  }

  /** How many of the first `n` ranges end on the next range's start. */
  function MergedCount<E(==)>(rs: seq<Range<E>>, n: nat): (c: nat)
    requires n <= |rs|
    ensures c <= n
  {
    if n == 0 then 0 else MergedCount(rs, n - 1) + (if Merged(rs, n - 1) then 1 else 0)
  }

  /** The index of the head drawn for the start of range `i`; for `i ==
      |rs|` the total number of heads. */
  function HeadIndex<E(==)>(rs: seq<Range<E>>, i: nat): nat
    requires i <= |rs|
  {
    2 * i - MergedCount(rs, i)
  }

  /** A start head is full when its range or the range before is preferred. */
  predicate StartFull<E>(rs: seq<Range<E>>, i: int)
    requires 0 <= i < |rs|
  {
    rs[i].preferred || (i > 0 && rs[i - 1].preferred)
  }

  /** An end head is full when its range or the range after is preferred. */
  predicate EndFull<E>(rs: seq<Range<E>>, i: int)
    requires 0 <= i < |rs|
  {
    rs[i].preferred || (i < |rs| - 1 && rs[i + 1].preferred)
  }

  /** Heads `heads` / `full` hold the start of range `k` at its index. */
  predicate StartDrawn<E(==)>(rs: seq<Range<E>>, heads: seq<E>, full: seq<bool>, k: int)
    requires 0 <= k < |rs|
  {
    HeadIndex(rs, k) < |heads| && HeadIndex(rs, k) < |full|
    && heads[HeadIndex(rs, k)] == rs[k].start && full[HeadIndex(rs, k)] == StartFull(rs, k)
  }

  /** ... and the end of range `k` right after it, unless it is merged. */
  predicate EndDrawn<E(==)>(rs: seq<Range<E>>, heads: seq<E>, full: seq<bool>, k: int)
    requires 0 <= k < |rs|
  {
    !Merged(rs, k) ==>
      HeadIndex(rs, k) + 1 < |heads| && HeadIndex(rs, k) + 1 < |full|
      && heads[HeadIndex(rs, k) + 1] == rs[k].end && full[HeadIndex(rs, k) + 1] == EndFull(rs, k)
  }

  predicate DrawnUpTo<E(==)>(rs: seq<Range<E>>, heads: seq<E>, full: seq<bool>, n: int)
    requires 0 <= n <= |rs|
  {
    forall k :: 0 <= k < n ==> StartDrawn(rs, heads, full, k) && EndDrawn(rs, heads, full, k)
  }

  /** `heads` / `full` are the note heads of `rs`: one for every range
      start and one for every end not shared with the next start, at the
      places `HeadIndex` gives, and nothing else. */
  predicate HeadsOf<E(==)>(rs: seq<Range<E>>, heads: seq<E>, full: seq<bool>) {
    |heads| == |full| == HeadIndex(rs, |rs|) && DrawnUpTo(rs, heads, full, |rs|)
  }

  /** The note heads of a list of ranges are determined by it. */
  lemma HeadsOfUnique<E>(rs: seq<Range<E>>, heads: seq<E>, full: seq<bool>, heads': seq<E>, full': seq<bool>)
    requires HeadsOf(rs, heads, full) && HeadsOf(rs, heads', full')
    ensures heads == heads' && full == full'
  {
    forall k | 0 <= k < |heads|
      ensures heads[k] == heads'[k] && full[k] == full'[k]
    {
      HeadsCovered(rs, |rs|, k);
      var i :| 0 <= i < |rs| && IsHeadOf(rs, i, k);
      assert StartDrawn(rs, heads, full, i) && EndDrawn(rs, heads, full, i);
      assert StartDrawn(rs, heads', full', i) && EndDrawn(rs, heads', full', i);
    }
  }

  /** Appending a head leaves the heads already drawn in place. */
  lemma AppendKeepsDrawn<E>(rs: seq<Range<E>>, heads: seq<E>, full: seq<bool>, n: int, x: E, b: bool)
    requires 0 <= n <= |rs| && DrawnUpTo(rs, heads, full, n)
    ensures DrawnUpTo(rs, heads + [x], full + [b], n)
  {
    forall k | 0 <= k < n
      ensures StartDrawn(rs, heads + [x], full + [b], k) && EndDrawn(rs, heads + [x], full + [b], k)
    {
      assert StartDrawn(rs, heads, full, k) && EndDrawn(rs, heads, full, k);
    }
  }

  /** `calc_note_heads` / `calc_note_heads_relative`: the boundary values of
      the ranges in order, a touching end and start drawn once, and whether
      each head is full. */
  method CalcNoteHeads<E(==)>(rs: seq<Range<E>>) returns (heads: seq<E>, full: seq<bool>)
    ensures |heads| == |full| == HeadIndex(rs, |rs|) == 2 * |rs| - MergedCount(rs, |rs|)
    ensures HeadsOf(rs, heads, full)
    ensures forall i :: 0 <= i < |rs| ==>
              HeadIndex(rs, i) < |heads|
              && heads[HeadIndex(rs, i)] == rs[i].start && full[HeadIndex(rs, i)] == StartFull(rs, i)
    ensures forall i :: 0 <= i < |rs| && !Merged(rs, i) ==>
              HeadIndex(rs, i) + 1 < |heads|
              && heads[HeadIndex(rs, i) + 1] == rs[i].end && full[HeadIndex(rs, i) + 1] == EndFull(rs, i)
    ensures forall k :: 0 <= k < |heads| ==>
              exists i :: 0 <= i < |rs| && (heads[k] == rs[i].start || heads[k] == rs[i].end)
  {
    heads, full := [], [];
    var i := 0;
    while i < |rs|
      invariant 0 <= i <= |rs|
      invariant |heads| == |full| == HeadIndex(rs, i)
      invariant DrawnUpTo(rs, heads, full, i)
    {
      HeadIndexGrows(rs, i);
      // start of range
      var isFull := false;
      if i != 0 && rs[i - 1].preferred {
        isFull := true;
      }
      if rs[i].preferred {
        isFull := true;
      }
      AppendKeepsDrawn(rs, heads, full, i, rs[i].start, isFull);
      heads := heads + [rs[i].start];
      full := full + [isFull];
      assert StartDrawn(rs, heads, full, i);
      // end of range
      isFull := false;
      if i != |rs| - 1 && rs[i].end == rs[i + 1].start {
        assert EndDrawn(rs, heads, full, i);
        i := i + 1;
        continue;
      }
      if rs[i].preferred {
        isFull := true;
      }
      if i != |rs| - 1 && rs[i + 1].preferred {
        isFull := true;
      }
      AppendKeepsDrawn(rs, heads, full, i, rs[i].end, isFull);
      assert StartDrawn(rs, heads + [rs[i].end], full + [isFull], i);
      heads := heads + [rs[i].end];
      full := full + [isFull];
      assert EndDrawn(rs, heads, full, i);
      i := i + 1;
    }
    forall k | 0 <= k < |heads|
      ensures exists i :: 0 <= i < |rs| && (heads[k] == rs[i].start || heads[k] == rs[i].end)
    {
      HeadsCovered(rs, |rs|, k);
      var i :| 0 <= i < |rs| && IsHeadOf(rs, i, k);
      assert StartDrawn(rs, heads, full, i) && EndDrawn(rs, heads, full, i);
    }
    forall i | 0 <= i < |rs|
      ensures HeadIndex(rs, i) < |heads|
              && heads[HeadIndex(rs, i)] == rs[i].start && full[HeadIndex(rs, i)] == StartFull(rs, i)
      ensures !Merged(rs, i) ==>
              HeadIndex(rs, i) + 1 < |heads|
              && heads[HeadIndex(rs, i) + 1] == rs[i].end && full[HeadIndex(rs, i) + 1] == EndFull(rs, i)
    {
      assert StartDrawn(rs, heads, full, i) && EndDrawn(rs, heads, full, i);
    }
  }

  /** Head `k` is the start of range `i`, or its end when that is drawn. */
  predicate IsHeadOf<E(==)>(rs: seq<Range<E>>, i: int, k: int)
    requires 0 <= i < |rs|
  {
    k == HeadIndex(rs, i) || (k == HeadIndex(rs, i) + 1 && !Merged(rs, i))
  }

  /** Each range adds two heads, or one when it ends where the next starts. */
  lemma HeadIndexGrows<E>(rs: seq<Range<E>>, i: nat)
    requires i < |rs|
    ensures HeadIndex(rs, i + 1) == HeadIndex(rs, i) + (if Merged(rs, i) then 1 else 2)
    ensures forall k :: 0 <= k <= i ==> HeadIndex(rs, k) <= HeadIndex(rs, i)
  {
    MonotoneHeadIndex(rs, i);
  }

  lemma {:induction false} MonotoneHeadIndex<E>(rs: seq<Range<E>>, i: nat)
    requires i <= |rs|
    ensures forall k :: 0 <= k <= i ==> HeadIndex(rs, k) <= HeadIndex(rs, i)
  {
    if i > 0 {
      MonotoneHeadIndex(rs, i - 1);
    }
  }

  /** Every head index belongs to some range: no other value is drawn. */
  lemma {:induction false} HeadsCovered<E>(rs: seq<Range<E>>, n: nat, k: int)
    requires n <= |rs| && 0 <= k < HeadIndex(rs, n)
    ensures exists i :: 0 <= i < n && IsHeadOf(rs, i, k)
  {
    if k < HeadIndex(rs, n - 1) {
      HeadsCovered(rs, n - 1, k);
    } else {
      HeadIndexGrows(rs, n - 1);
      assert IsHeadOf(rs, n - 1, k);
    }
  }

  /** Where two ranges touch, the shared head is full when either of them
      is preferred. */
  lemma MergedJunctionFull<E>(rs: seq<Range<E>>, i: nat)
    requires i < |rs| && Merged(rs, i)
    ensures HeadIndex(rs, i + 1) == HeadIndex(rs, i) + 1
    ensures StartFull(rs, i + 1) <==> rs[i].preferred || rs[i + 1].preferred
  {
    HeadIndexGrows(rs, i);
  }

  // ---------------------------------------------------------------- accidentals of one staff

  /** An accidental glyph; `None` is the empty string, no glyph at all. */
  type Glyph = Option<Accidental>

  /** The rule for a head with nothing to compare against: a natural needs
      no sign. */
  function DropNatural(a: Accidental): (g: Glyph)
    ensures g == None <==> a == Natural
    ensures g.Some? ==> g.value == a
  {
    if a == Natural then None else Some(a)
  }

  /** The glyph `find_accidentals` gives head `i`: on the same staff
      position as the previous head, the accidental is shown exactly when it
      changes; elsewhere a natural is not shown. */
  function GlyphAt(ps: seq<Pitch>, i: nat): Glyph
    requires i < |ps|
  {
    if i != 0 && StaffPosition(ps[i]) == StaffPosition(ps[i - 1]) then
      if ps[i].accidental != ps[i - 1].accidental then Some(ps[i].accidental) else None
    else DropNatural(ps[i].accidental)
  }

  /** `find_accidentals`. */
  method FindAccidentals(ps: seq<Pitch>) returns (glyphs: seq<Glyph>)
    ensures |glyphs| == |ps|
    ensures forall i :: 0 <= i < |ps| ==> glyphs[i] == GlyphAt(ps, i)
  {
    glyphs := [];
    for i := 0 to |ps|
      invariant |glyphs| == i
      invariant forall k :: 0 <= k < i ==> glyphs[k] == GlyphAt(ps, k)
    {
      if i != 0 && StaffPosition(ps[i]) == StaffPosition(ps[i - 1]) {
        if ps[i].accidental != ps[i - 1].accidental {
          glyphs := glyphs + [Some(ps[i].accidental)];
        } else {
          glyphs := glyphs + [None];
        }
      } else {
        glyphs := glyphs + [DropNatural(ps[i].accidental)];
      }
    }
  }

  /** Each glyph is empty or the head's own accidental; a natural sign
      appears only on the staff position of the previous head, after a
      different accidental. */
  lemma GlyphIsOwnAccidental(ps: seq<Pitch>, i: nat)
    requires i < |ps|
    ensures GlyphAt(ps, i) == None || GlyphAt(ps, i) == Some(ps[i].accidental)
    ensures GlyphAt(ps, i) == Some(Natural) ==>
              i > 0 && StaffPosition(ps[i]) == StaffPosition(ps[i - 1]) && ps[i - 1].accidental != Natural
  {
  }

  /** On the staff position of the previous head, the glyph is empty exactly
      when the accidental repeats. */
  lemma RepeatedAccidentalHidden(ps: seq<Pitch>, i: nat)
    requires 0 < i < |ps| && StaffPosition(ps[i]) == StaffPosition(ps[i - 1])
    ensures GlyphAt(ps, i) == None <==> ps[i].accidental == ps[i - 1].accidental
  {
  }

  /** How a reader recovers the accidental of head `i` from the staff
      positions and the glyphs: a glyph says it; no glyph repeats the
      previous head on the same position, or means natural. */
  function ReadAccidental(positions: seq<int>, glyphs: seq<Glyph>, i: nat): Accidental
    requires |positions| == |glyphs| && i < |glyphs|
  {
    match glyphs[i]
    case Some(a) => a
    case None =>
      if i > 0 && positions[i] == positions[i - 1] then ReadAccidental(positions, glyphs, i - 1)
      else Natural
  }

  function StaffPositions(ps: seq<Pitch>): (positions: seq<int>)
    ensures |positions| == |ps|
    ensures forall i :: 0 <= i < |ps| ==> positions[i] == StaffPosition(ps[i])
  {
    seq(|ps|, i requires 0 <= i < |ps| => StaffPosition(ps[i]))
  }

  /** The glyphs lose nothing: reading them back gives every head's
      accidental. */
  lemma {:induction false} FindAccidentalsReadBack(ps: seq<Pitch>, glyphs: seq<Glyph>, i: nat)
    requires |glyphs| == |ps| && forall k :: 0 <= k < |ps| ==> glyphs[k] == GlyphAt(ps, k)
    requires i < |ps|
    ensures ReadAccidental(StaffPositions(ps), glyphs, i) == ps[i].accidental
  {
    if glyphs[i] == None && i > 0 && StaffPosition(ps[i]) == StaffPosition(ps[i - 1]) {
      FindAccidentalsReadBack(ps, glyphs, i - 1);
    }
  }

  // ---------------------------------------------------------------- accidentals across strings

  /** The staff positions of every string's heads (`staff_positions`). */
  function PositionTable(strings: seq<seq<Pitch>>): (table: seq<seq<int>>)
    ensures |table| == |strings|
    ensures forall s :: 0 <= s < |strings| ==> table[s] == StaffPositions(strings[s])
  {
    seq(|strings|, s requires 0 <= s < |strings| => StaffPositions(strings[s]))
  }

  /** Every string has one head per reduced interval. */
  predicate Rectangular<T>(rows: seq<seq<T>>, m: nat) {
    forall s :: 0 <= s < |rows| ==> |rows[s]| == m
  }

  /** The last index below `j` of `row` that holds `spos`. */
  function LastInRow(row: seq<int>, j: nat, spos: int): (r: Option<nat>)
    requires j <= |row|
    ensures r.Some? ==> r.value < j && row[r.value] == spos
    ensures r.Some? ==> forall k :: r.value < k < j ==> row[k] != spos
    ensures r.None? ==> forall k :: 0 <= k < j ==> row[k] != spos
  {
    if j == 0 then None else if row[j - 1] == spos then Some(j - 1) else LastInRow(row, j - 1, spos)
  }

  /** `last_conflict_idx`: the last (string, head) pair, in the order the
      loops visit them, among the strings below `s` whose head sits on
      `spos`. */
  function LastConflict(table: seq<seq<int>>, s: nat, m: nat, spos: int): (r: Option<(nat, nat)>)
    requires s <= |table| && Rectangular(table, m)
    ensures r.Some? ==> r.value.0 < s && r.value.1 < m && table[r.value.0][r.value.1] == spos
    ensures r.None? ==> forall i, j :: 0 <= i < s && 0 <= j < m ==> table[i][j] != spos
    ensures r.Some? ==> forall i, j :: 0 <= i < s && 0 <= j < m && table[i][j] == spos ==>
                          i < r.value.0 || (i == r.value.0 && j <= r.value.1)
  {
    if s == 0 then None
    else match LastInRow(table[s - 1], m, spos)
      case Some(j) => Some((s - 1, j))
      case None => LastConflict(table, s - 1, m, spos)
  }

  /** What `last_conflict_idx` holds after the inner loop has seen the first
      `j` heads of string `i`. */
  function ConflictSoFar(table: seq<seq<int>>, i: nat, j: nat, m: nat, spos: int): Option<(nat, nat)>
    requires i < |table| && j <= m && Rectangular(table, m)
  {
    match LastInRow(table[i], j, spos)
    case Some(k) => Some((i, k))
    case None => LastConflict(table, i, m, spos)
  }

  /** The nested search loops of the stringed-instrument chart. */
  method FindLastConflict(table: seq<seq<int>>, s: nat, m: nat, spos: int) returns (last: Option<(nat, nat)>)
    requires s <= |table| && Rectangular(table, m)
    ensures last == LastConflict(table, s, m, spos)
  {
    last := None;
    for i := 0 to s
      invariant last == LastConflict(table, i, m, spos)
    {
      for j := 0 to m
        invariant last == ConflictSoFar(table, i, j, m, spos)
      {
        if table[i][j] == spos {
          last := Some((i, j));
        }
      }
    }
  }

  /** The glyph of a head on a later string, given the glyphs already chosen
      for the strings before it and its last conflict there. */
  function ConflictGlyph(a: Accidental, conflict: Option<(nat, nat)>, prev: seq<seq<Glyph>>): (g: Glyph)
    requires conflict.Some? ==> conflict.value.0 < |prev| && conflict.value.1 < |prev[conflict.value.0]|
  {
    match conflict
    case None => DropNatural(a)
    case Some((i, j)) =>
      if a == Natural && (prev[i][j] == None || prev[i][j] == Some(Natural)) then None
      else if prev[i][j] == Some(a) then None
      else Some(a)
  }

  /** The glyph of head `n` on string `s`: the first string uses the rule
      for a head with nothing to compare against. */
  function StringGlyph(strings: seq<seq<Pitch>>, prev: seq<seq<Glyph>>, s: nat, n: nat, m: nat): Glyph
    requires s < |strings| && n < m && Rectangular(strings, m)
    requires |prev| == s && Rectangular(prev, m)
  {
    var a := strings[s][n].accidental;
    if s == 0 then DropNatural(a)
    else ConflictGlyph(a, LastConflict(PositionTable(strings), s, m, StaffPosition(strings[s][n])), prev)
  }

  /** The glyph rows of the first `count` strings. */
  function GlyphRows(strings: seq<seq<Pitch>>, count: nat, m: nat): (rows: seq<seq<Glyph>>)
    requires count <= |strings| && Rectangular(strings, m)
    ensures |rows| == count && Rectangular(rows, m)
  {
    if count == 0 then []
    else
      var prev := GlyphRows(strings, count - 1, m);
      prev + [seq(m, n requires 0 <= n < m => StringGlyph(strings, prev, count - 1, n, m))]
  }

  /** The accidental loop of `StringedInst.generate_s_pitch_ranges`. */
  method StringAccidentals(strings: seq<seq<Pitch>>, m: nat) returns (accidentals: seq<seq<Glyph>>)
    requires Rectangular(strings, m)
    ensures accidentals == GlyphRows(strings, |strings|, m)
  {
    var table := PositionTable(strings);
    accidentals := [];
    for stringIdx := 0 to |strings|
      invariant accidentals == GlyphRows(strings, stringIdx, m)
    {
      var inner: seq<Glyph> := [];
      for note := 0 to m
        invariant |inner| == note
        invariant forall n :: 0 <= n < note ==> inner[n] == StringGlyph(strings, accidentals, stringIdx, n, m)
      {
        var pitch := strings[stringIdx][note];
        var glyph: Glyph;
        if stringIdx == 0 {
          glyph := DropNatural(pitch.accidental);
        } else {
          var spos := table[stringIdx][note];
          var lastConflict := FindLastConflict(table, stringIdx, m, spos);
          if lastConflict.None? {
            glyph := DropNatural(pitch.accidental);
          } else {
            var accidental := pitch.accidental;
            var (i, j) := lastConflict.value;
            if accidental == Natural && (accidentals[i][j] == None || accidentals[i][j] == Some(Natural)) {
              glyph := None;
            } else if accidentals[i][j] == Some(accidental) {
              glyph := None;
            } else {
              glyph := Some(accidental);
            }
          }
        }
        assert glyph == StringGlyph(strings, accidentals, stringIdx, note, m);
        inner := inner + [glyph];
      }
      assert inner == seq(m, n requires 0 <= n < m => StringGlyph(strings, accidentals, stringIdx, n, m));
      accidentals := accidentals + [inner];
    }
  }

  /** Earlier rows do not change as more strings are added. */
  lemma {:induction false} GlyphRowsPrefix(strings: seq<seq<Pitch>>, count: nat, k: nat, m: nat)
    requires k < count <= |strings| && Rectangular(strings, m)
    ensures GlyphRows(strings, count, m)[k] == GlyphRows(strings, k + 1, m)[k]
  {
    if count > k + 1 {
      GlyphRowsPrefix(strings, count - 1, k, m);
    }
  }

  /** How a reader recovers a head's accidental from the chart: its own
      glyph, or else the glyph shown at its last conflict, or else natural. */
  function ReadStringAccidental(table: seq<seq<int>>, glyphs: seq<seq<Glyph>>, s: nat, n: nat, m: nat): Accidental
    requires s < |table| && n < m && Rectangular(table, m)
    requires |glyphs| == |table| && Rectangular(glyphs, m)
  {
    match glyphs[s][n]
    case Some(a) => a
    case None =>
      match LastConflict(table, s, m, table[s][n])
      case None => Natural
      case Some((i, j)) => glyphs[i][j].GetOr(Natural)
  }

  /** Every glyph is empty or the head's own accidental, and the chart loses
      nothing: reading it back gives every head's accidental. */
  lemma StringGlyphsReadBack(strings: seq<seq<Pitch>>, m: nat, s: nat, n: nat)
    requires Rectangular(strings, m) && s < |strings| && n < m
    ensures var glyphs := GlyphRows(strings, |strings|, m);
            && (glyphs[s][n] == None || glyphs[s][n] == Some(strings[s][n].accidental))
            && ReadStringAccidental(PositionTable(strings), glyphs, s, n, m) == strings[s][n].accidental
  {
    var glyphs := GlyphRows(strings, |strings|, m);
    var prev := GlyphRows(strings, s, m);
    GlyphRowsPrefix(strings, |strings|, s, m);
    assert glyphs[s][n] == StringGlyph(strings, prev, s, n, m);
    var table := PositionTable(strings);
    var conflict := LastConflict(table, s, m, StaffPosition(strings[s][n]));
    if s > 0 && conflict.Some? {
      var (i, j) := conflict.value;
      GlyphRowsPrefix(strings, |strings|, i, m);
      GlyphRowsPrefix(strings, s, i, m);
      assert glyphs[i][j] == prev[i][j];
    }
  }
}
