/** The staff of a chart: how far the staff lines reach, whether the extra
    clefs two octaves above and below are drawn, which lines are drawn at
    full strength, and where the instrument columns sit
    (lib/__init__.py:41-104, 146-206; the same functions in __main__.py). */
module Staff {
  import opened Wrappers
  import opened Consts

  function Min(a: int, b: int): int {
    if a <= b then a else b
  }

  function Max(a: int, b: int): int {
    if a >= b then a else b
  }

  // ---------------------------------------------------------------- extent

  /** `calc_lowest_line`: the lowest staff line and whether the low F clef
      is drawn. The F staff is always shown; the low F clef appears once the
      music comes within four positions of its bottom line, and then the
      whole clef is shown. */
  function LowestLine(minPos: int): (r: (int, bool))
    ensures r.1 <==> Min(FRange.0, minPos) < LfRange.0 + 4
    ensures r.0 == Min(minPos, if r.1 then LfRange.0 else FRange.0)
    ensures r.0 <= minPos && r.0 <= FRange.0
  {
    var low := Min(FRange.0, minPos);
    if low < LfRange.0 + 4 then (Min(low, LfRange.0), true) else (low, false)
  }

  /** `calc_highest_line`: the mirror image for the high G clef. */
  function HighestLine(maxPos: int): (r: (int, bool))
    ensures r.1 <==> Max(GRange.1, maxPos) > UgRange.1 - 4
    ensures r.0 == Max(maxPos, if r.1 then UgRange.1 else GRange.1)
    ensures r.0 >= maxPos && r.0 >= GRange.1
  {
    var high := Max(GRange.1, maxPos);
    if high > UgRange.1 - 4 then (Max(high, UgRange.1), true) else (high, false)
  }

  /** The two computations are mirror images around middle C. */
  lemma LinesMirror(pos: int)
    ensures HighestLine(pos) == (-LowestLine(-pos).0, LowestLine(-pos).1)
  {
    ClefRanges();
  }

  // ---------------------------------------------------------------- line style

  datatype LineStyle = Full | Secondary

  /** The style decision of `draw_staff_lines`: lines outside the G and F
      staves and the middle-C line are secondary unless they belong to an
      extra clef that is drawn. */
  function StyleAt(pos: int, drawUg: bool, drawLf: bool): (s: LineStyle)
    ensures s == Full <==>
              || (FRange.0 <= pos <= GRange.1 && pos != 0)
              || (drawUg && UgRange.0 <= pos <= UgRange.1)
              || (drawLf && LfRange.0 <= pos <= LfRange.1)
  {
    var secondary := pos > GRange.1 || pos < FRange.0 || pos == 0;
    var inUg := drawUg && UgRange.0 <= pos <= UgRange.1;
    var inLf := drawLf && LfRange.0 <= pos <= LfRange.1;
    if secondary && !inUg && !inLf then Secondary else Full
  }

  /** The middle-C line is always secondary, and the lines between the
      staves and the extra clefs too. */
  lemma StyleFacts(drawUg: bool, drawLf: bool)
    ensures StyleAt(0, drawUg, drawLf) == Secondary
    ensures forall p :: GRange.1 < p < UgRange.0 ==> StyleAt(p, drawUg, drawLf) == Secondary
    ensures forall p :: LfRange.1 < p < FRange.0 ==> StyleAt(p, drawUg, drawLf) == Secondary
  {
  }

  /** `draw_staff_lines`: one line at every even position from `lo` to `hi`,
      in order, each with its style. Python's `%` agrees with Dafny's for
      the divisor 2, so odd negative positions are skipped as well. */
  method StaffLines(lo: int, hi: int, drawUg: bool, drawLf: bool) returns (lines: seq<(int, LineStyle)>)
    ensures forall k :: 0 <= k < |lines| ==> lo <= lines[k].0 <= hi && lines[k].0 % 2 == 0
    ensures forall k :: 0 <= k < |lines| ==> lines[k].1 == StyleAt(lines[k].0, drawUg, drawLf)
    ensures forall k, l :: 0 <= k < l < |lines| ==> lines[k].0 < lines[l].0
    ensures forall p :: lo <= p <= hi && p % 2 == 0 ==> exists k :: 0 <= k < |lines| && lines[k].0 == p
  {
    lines := [];
    var pos := lo;
    while pos <= hi
      invariant lo <= pos && (pos <= hi + 1 || pos == lo)
      invariant DrawnBelow(lines, lo, pos, drawUg, drawLf)
      decreases hi - pos
    {
      if pos % 2 == 1 {
        pos := pos + 1;
        continue;
      }
      DrawnAppend(lines, lo, pos, drawUg, drawLf);
      lines := lines + [(pos, StyleAt(pos, drawUg, drawLf))];
      pos := pos + 1;
    }
  }

  /** The loop state of `StaffLines`: every even position from `lo` below
      `pos` drawn once, in order, with its style. */
  predicate DrawnBelow(lines: seq<(int, LineStyle)>, lo: int, pos: int, drawUg: bool, drawLf: bool) {
    && (forall k :: 0 <= k < |lines| ==> lo <= lines[k].0 < pos && lines[k].0 % 2 == 0)
    && (forall k :: 0 <= k < |lines| ==> lines[k].1 == StyleAt(lines[k].0, drawUg, drawLf))
    && (forall k, l :: 0 <= k < l < |lines| ==> lines[k].0 < lines[l].0)
    && (forall p :: lo <= p < pos && p % 2 == 0 ==> exists k :: 0 <= k < |lines| && lines[k].0 == p)
  }

  /** Drawing the even position `pos` extends the state by one line. */
  lemma DrawnAppend(lines: seq<(int, LineStyle)>, lo: int, pos: int, drawUg: bool, drawLf: bool)
    requires DrawnBelow(lines, lo, pos, drawUg, drawLf) && lo <= pos && pos % 2 == 0
    ensures DrawnBelow(lines + [(pos, StyleAt(pos, drawUg, drawLf))], lo, pos + 1, drawUg, drawLf)
  {
    var longer := lines + [(pos, StyleAt(pos, drawUg, drawLf))];
    assert forall k :: 0 <= k < |lines| ==> longer[k] == lines[k];
    assert longer[|lines|].0 == pos;
    forall p | lo <= p < pos + 1 && p % 2 == 0
      ensures exists k :: 0 <= k < |longer| && longer[k].0 == p
    {
      if p == pos {
        assert longer[|lines|].0 == p;
      } else {
        var k :| 0 <= k < |lines| && lines[k].0 == p;
        assert longer[k].0 == p;
      }
    }
  }

  /** The extent of the full-strength barlines: `(highest_full,
      lowest_full)`. They reach exactly the outermost full lines. */
  function FullExtent(drawUg: bool, drawLf: bool): (r: (int, int))
    ensures StyleAt(r.0, drawUg, drawLf) == Full && StyleAt(r.1, drawUg, drawLf) == Full
    ensures forall p :: p > r.0 ==> StyleAt(p, drawUg, drawLf) == Secondary
    ensures forall p :: p < r.1 ==> StyleAt(p, drawUg, drawLf) == Secondary
  {
    (if !drawUg then GRange.1 else UgRange.1, if !drawLf then FRange.0 else LfRange.0)
  }

  /** The full barlines never leave the drawn staff. */
  lemma FullExtentWithinStaff(minPos: int, maxPos: int)
    ensures var (lo, drawLf) := LowestLine(minPos);
            var (hi, drawUg) := HighestLine(maxPos);
            var (top, bottom) := FullExtent(drawUg, drawLf);
            lo <= bottom < 0 < top <= hi
  {
  }

  // ---------------------------------------------------------------- columns

  /** `INST_WIDTH`, the width of one instrument's column. */
  const InstWidth: real := 60.0

  /** The instrument columns of `generate_staff`: each starts one column
      width after the previous one, the first right after the clefs, and a
      separator stands between each two neighbours. */
  method Columns(n: nat, clefOffset: real, clefWidth: real) returns (columns: seq<real>, separators: seq<real>)
    ensures |columns| == n && |separators| == (if n == 0 then 0 else n - 1)
    ensures n > 0 ==> columns[0] == clefOffset + clefWidth
    ensures forall i :: 0 <= i < n - 1 ==> columns[i + 1] == columns[i] + InstWidth
    ensures forall i :: 0 <= i < |separators| ==> separators[i] == columns[i + 1]
  {
    columns, separators := [], [];
    for i := 0 to n
      invariant |columns| == i && |separators| == (if i == n && n > 0 then n - 1 else i)
      invariant forall k :: 0 <= k < i ==> columns[k] == clefOffset + clefWidth + k as real * InstWidth
      invariant forall k :: 0 <= k < |separators| ==> separators[k] == clefOffset + clefWidth + (k + 1) as real * InstWidth
    {
      var x := clefOffset + clefWidth + i as real * InstWidth;
      columns := columns + [x];
      if i < n - 1 {
        separators := separators + [x + InstWidth];
      }
    }
  }

  /** The extent computed by `generate_staff` from the instruments' lowest
      and highest sounding staff positions. */
  datatype StaffExtent = StaffExtent(lowest: int, drawLf: bool, highest: int, drawUg: bool, topFull: int, bottomFull: int)

  /** Python's `min` over a list: ValueError when it is empty. */
  function SeqMin(xs: seq<int>): (r: Result<int>)
    ensures r.Ok? <==> |xs| > 0
    ensures r.Err? ==> r.error == ValueError
    ensures r.Ok? ==> r.value in xs && forall k :: 0 <= k < |xs| ==> r.value <= xs[k]
  {
    if |xs| == 0 then Err(ValueError)
    else if |xs| == 1 then Ok(xs[0])
    else
      var m := SeqMin(xs[1..]).value;
      assert forall k :: 1 <= k < |xs| ==> xs[k] == xs[1..][k - 1];
      Ok(Min(xs[0], m))
  }

  /** Python's `max` over a list. */
  function SeqMax(xs: seq<int>): (r: Result<int>)
    ensures r.Ok? <==> |xs| > 0
    ensures r.Err? ==> r.error == ValueError
    ensures r.Ok? ==> r.value in xs && forall k :: 0 <= k < |xs| ==> r.value >= xs[k]
  {
    if |xs| == 0 then Err(ValueError)
    else if |xs| == 1 then Ok(xs[0])
    else
      var m := SeqMax(xs[1..]).value;
      assert forall k :: 1 <= k < |xs| ==> xs[k] == xs[1..][k - 1];
      Ok(Max(xs[0], m))
  }

  /** The staff of `generate_staff`: the staff covers every instrument's
      sounding extent and the full barlines lie inside it. */
  function GenerateExtent(minPositions: seq<int>, maxPositions: seq<int>): (r: Result<StaffExtent>)
    ensures r.Ok? <==> |minPositions| > 0 && |maxPositions| > 0
    ensures r.Err? ==> r.error == ValueError
    ensures r.Ok? ==> forall k :: 0 <= k < |minPositions| ==> r.value.lowest <= minPositions[k]
    ensures r.Ok? ==> forall k :: 0 <= k < |maxPositions| ==> maxPositions[k] <= r.value.highest
    ensures r.Ok? ==> r.value.lowest <= r.value.bottomFull < 0 < r.value.topFull <= r.value.highest
    ensures r.Ok? ==> (r.value.topFull, r.value.bottomFull) == FullExtent(r.value.drawUg, r.value.drawLf)
    ensures r.Ok? ==> (r.value.lowest, r.value.drawLf) == LowestLine(SeqMin(minPositions).value)
    ensures r.Ok? ==> (r.value.highest, r.value.drawUg) == HighestLine(SeqMax(maxPositions).value)
  {
    var low :- SeqMin(minPositions);
    var high :- SeqMax(maxPositions);
    var (lowest, drawLf) := LowestLine(low);
    var (highest, drawUg) := HighestLine(high);
    var (top, bottom) := FullExtent(drawUg, drawLf);
    FullExtentWithinStaff(low, high);
    Ok(StaffExtent(lowest, drawLf, highest, drawUg, top, bottom))
  }
}
