/** The instrument file format (lib/parser.py): the first line is the
    instrument's name; a line `title:` opens a block that collects the
    following colon-free lines; a line `title: value` stores the value's
    words directly. */
module Parser {
  import opened Wrappers
  import opened Text

  // ---------------------------------------------------------------- clean-up

  /** The clean-up of one file line in `parse`: strip, cut at the first
      "//", strip again. */
  function CleanLine(line: string): string {
    Strip(BeforeComment(Strip(line)))
  }

  /** The lines `parse` keeps, in order. */
  function Cleaned(lines: seq<string>): (r: seq<string>)
    ensures |r| <= |lines|
    ensures forall k :: 0 <= k < |r| ==> r[k] != ""
  {
    if |lines| == 0 then []
    else
      var rest := Cleaned(lines[1..]);
      var c := CleanLine(lines[0]);
      if c != "" then [c] + rest else rest
  }

  /** No "//" inside `s`. */
  predicate NoMarker(s: string) {
    forall k :: 0 <= k < |s| - 1 ==> !(s[k] == '/' && s[k + 1] == '/')
  }

  lemma NoMarkerSlice(s: string, i: nat, j: nat)
    requires NoMarker(s) && i <= j <= |s|
    ensures NoMarker(s[i..j])
  {
    var t := s[i..j];
    forall k | 0 <= k < |t| - 1
      ensures !(t[k] == '/' && t[k + 1] == '/')
    {
      assert t[k] == s[i + k] && t[k + 1] == s[i + k + 1];
    }
  }

  /** A cleaned line holds no comment marker and no surrounding
      whitespace. */
  lemma CleanLineShape(line: string)
    ensures NoMarker(CleanLine(line))
    ensures CleanLine(line) == [] || (!IsSpace(CleanLine(line)[0]) && !IsSpace(CleanLine(line)[|CleanLine(line)| - 1]))
  {
    var b := BeforeComment(Strip(line));
    assert NoMarker(b);
    var i, j :| 0 <= i <= j <= |b| && Strip(b) == b[i..j];
    NoMarkerSlice(b, i, j);
  }

  /** The reading loop of `parse` (the file itself is not modelled). */
  method CleanLines(lines: seq<string>) returns (kept: seq<string>)
    ensures kept == Cleaned(lines)
  {
    kept := [];
    var i := |lines|;
    while i > 0
      invariant 0 <= i <= |lines|
      invariant kept == Cleaned(lines[i..])
    {
      i := i - 1;
      var c := CleanLine(lines[i]);
      assert lines[i..][1..] == lines[i + 1..];
      if c != "" {
        kept := [c] + kept;
      }
    }
  }

  // ---------------------------------------------------------------- the state machine

  /** The values of a header line: the parts after the first colon that
      are not blank, stripped. */
  function HeaderValues(parts: seq<string>): (r: seq<string>)
    ensures |r| <= |parts|
    ensures forall k :: 0 <= k < |r| ==> r[k] != ""
  {
    if |parts| == 0 then []
    else
      var rest := HeaderValues(parts[1..]);
      if Strip(parts[0]) != "" then [Strip(parts[0])] + rest else rest
  }

  /** The loop state of `__parse_lines`. An empty `active` stands for no
      open block: Python treats `None` and an empty title alike here. */
  datatype ParserState = ParserState(active: string, section: seq<string>, out: map<string, seq<string>>)

  const Start: ParserState := ParserState("", [], map[])

  /** Store the open block, if any. */
  function Flush(st: ParserState): map<string, seq<string>> {
    if st.active != "" then st.out[st.active := st.section] else st.out
  }

  /** One line of `__parse_lines`: a line with a colon is a header, which
      stores the open block; any other line joins the open block, and
      without one it is a ValueError. No stored field is ever dropped. */
  function Step(st: ParserState, line: string): (r: Result<ParserState>)
    ensures r.Err? ==> r.error == ValueError
    ensures ':' !in line ==> (r.Ok? <==> st.active != "")
    ensures ':' !in line && r.Ok? ==> r.value.active == st.active && r.value.section == st.section + [line]
    ensures ':' in line && r.Ok? ==> Flush(st).Keys <= r.value.out.Keys
    ensures r.Ok? ==> Flush(st).Keys <= Flush(r.value).Keys
  {
    if ':' in line then
      var closed := if st.active != "" then ParserState("", [], Flush(st)) else st;
      var parts := SplitOn(line, ':');
      var title := Lower(parts[0]);
      var more := HeaderValues(parts[1..]);
      if |more| == 0 then Ok(closed.(active := title))
      else if |more| == 1 then
        // `str.split()` yields stripped, non-empty words already
        Ok(closed.(out := closed.out[title := SplitWs(more[0])]))
      else Err(ValueError)
    else if st.active == "" then Err(ValueError)
    else Ok(st.(section := st.section + [line]))
  }

  /** The lines processed in order; the first failure stops the loop, and
      the fields stored before are all still there at the end. */
  function Run(st: ParserState, lines: seq<string>): (r: Result<ParserState>)
    ensures r.Err? ==> r.error == ValueError
    ensures r.Ok? ==> Flush(st).Keys <= Flush(r.value).Keys
  {
    if |lines| == 0 then Ok(st)
    else
      var prev :- Run(st, lines[..|lines| - 1]);
      Step(prev, lines[|lines| - 1])
  }

  /** `__parse_lines`: the first line is the name and the rest give the
      fields; IndexError without lines, ValueError on a misplaced line. */
  function ParseSpec(lines: seq<string>): (r: Result<(string, map<string, seq<string>>)>)
    ensures |lines| == 0 ==> r == Err(IndexError)
    ensures |lines| > 0 && r.Err? ==> r.error == ValueError
    ensures r.Ok? ==> r.value.0 == lines[0] && Run(Start, lines[1..]).Ok?
  {
    if |lines| == 0 then Err(IndexError)
    else
      var st :- Run(Start, lines[1..]);
      Ok((lines[0], Flush(st)))
  }

  /** `__parse_lines` as the loop it is. */
  method ParseLines(lines: seq<string>) returns (r: Result<(string, map<string, seq<string>>)>)
    ensures r == ParseSpec(lines)
  {
    if |lines| == 0 {
      return Err(IndexError);
    }
    var name := lines[0];
    var active := "";
    var section: seq<string> := [];
    var out: map<string, seq<string>> := map[];
    for i := 1 to |lines|
      invariant Run(Start, lines[1..i]) == Ok(ParserState(active, section, out))
    {
      var line := lines[i];
      var prefix := lines[1..i + 1];
      assert prefix[..|prefix| - 1] == lines[1..i] && prefix[|prefix| - 1] == line;
      assert lines[1..][..i] == prefix;
      ghost var st := ParserState(active, section, out);
      assert Run(Start, prefix) == Step(st, line);
      if ':' in line {
        if active != "" {
          out := out[active := section];
          active := "";
          section := [];
        }
        var parts := SplitOn(line, ':');
        var title := Lower(parts[0]);
        var more := HeaderValues(parts[1..]);
        if |more| == 0 {
          active := title;
        }
        if |more| == 1 {
          out := out[title := SplitWs(more[0])];
        }
        if |more| > 1 {
          RunStopsAtError(Start, lines[1..], i);
          return Err(ValueError);
        }
      } else {
        if active == "" {
          RunStopsAtError(Start, lines[1..], i);
          return Err(ValueError);
        }
        section := section + [line];
      }
    }
    assert lines[1..|lines|] == lines[1..];
    assert Run(Start, lines[1..]) == Ok(ParserState(active, section, out));
    return Ok((name, Flush(ParserState(active, section, out))));
  }

  /** Once a prefix fails, the whole run fails the same way. */
  lemma {:induction false} RunStopsAtError(st: ParserState, lines: seq<string>, n: nat)
    requires n <= |lines| && Run(st, lines[..n]).Err?
    ensures Run(st, lines) == Run(st, lines[..n])
    decreases |lines| - n
  {
    if n < |lines| {
      assert lines[..n + 1][..n] == lines[..n];
      RunStopsAtError(st, lines, n + 1);
    } else {
      assert lines[..n] == lines;
    }
  }

  /** Running two pieces one after the other is running their
      concatenation. */
  lemma {:induction false} RunAppend(st: ParserState, a: seq<string>, b: seq<string>)
    requires Run(st, a).Ok?
    ensures Run(st, a + b) == Run(Run(st, a).value, b)
    decreases |b|
  {
    if |b| == 0 {
      assert a + b == a;
    } else {
      var b' := b[..|b| - 1];
      assert (a + b)[..|a + b| - 1] == a + b';
      RunAppend(st, a, b');
    }
  }

  // ---------------------------------------------------------------- properties

  predicate LowerKeys(st: ParserState) {
    IsLower(st.active) && forall k :: k in st.out ==> IsLower(k)
  }

  /** Every key the parser stores is lowercase. */
  lemma {:induction false} RunKeepsLowerKeys(st: ParserState, lines: seq<string>)
    requires LowerKeys(st) && Run(st, lines).Ok?
    ensures LowerKeys(Run(st, lines).value)
    decreases |lines|
  {
    if |lines| > 0 {
      RunKeepsLowerKeys(st, lines[..|lines| - 1]);
    }
  }

  lemma ParseKeysLower(lines: seq<string>)
    requires ParseSpec(lines).Ok?
    ensures forall k :: k in ParseSpec(lines).value.1 ==> IsLower(k)
  {
    RunKeepsLowerKeys(Start, lines[1..]);
  }

  /** No lines at all: IndexError; a value line before any block:
      ValueError. */
  lemma ParseErrors(name: string, value: string, rest: seq<string>)
    requires ':' !in value
    ensures ParseSpec([]) == Err(IndexError)
    ensures ParseSpec([name, value] + rest) == Err(ValueError)
  {
    var lines := [name, value] + rest;
    assert lines[1..][..1] == [value];
    var single: seq<string> := [value];
    assert single[..0] == [];
    RunStopsAtError(Start, lines[1..], 1);
  }

  /** A header with two or more values fails wherever it stands. */
  lemma TooManyValuesFails(st: ParserState, line: string)
    requires ':' in line && |HeaderValues(SplitOn(line, ':')[1..])| > 1
    ensures Step(st, line) == Err(ValueError)
  {
  }

  /** Colon-free lines are collected, in order, in the open block. */
  lemma {:induction false} BlockCollects(st: ParserState, values: seq<string>)
    requires st.active != ""
    requires forall k :: 0 <= k < |values| ==> ':' !in values[k]
    ensures Run(st, values) == Ok(st.(section := st.section + values))
    decreases |values|
  {
    if |values| > 0 {
      var init := values[..|values| - 1];
      var last := values[|values| - 1];
      BlockCollects(st, init);
      var mid := st.(section := st.section + init);
      assert ':' !in last;
      assert Step(mid, last) == Ok(mid.(section := mid.section + [last]));
      assert init + [last] == values;
      assert st.section + init + [last] == st.section + values;
    } else {
      assert st.section + values == st.section;
    }
  }

  /** Without an open block the collected list is empty: the parser only
      collects while a block is open and empties the list on closing it. */
  predicate Tidy(st: ParserState) {
    st.active == "" ==> st.section == []
  }

  lemma {:induction false} RunKeepsTidy(st: ParserState, lines: seq<string>)
    requires Tidy(st) && Run(st, lines).Ok?
    ensures Tidy(Run(st, lines).value)
    decreases |lines|
  {
    if |lines| > 0 {
      RunKeepsTidy(st, lines[..|lines| - 1]);
    }
  }

  /** `title:` closes the open block, storing it, and opens a new one
      under the lowercased title. */
  lemma HeaderOpensBlock(st: ParserState, title: string)
    requires Tidy(st) && ':' !in title
    ensures Step(st, title + ":") == Ok(ParserState(Lower(title), [], Flush(st)))
  {
    var header := title + ":";
    var parts := SplitOn(header, ':');
    assert parts == [title, ""] by {
      SplitOnFirst(title, ':', "");
      assert header == title + [':'] + "";
    }
    assert HeaderValues(parts[1..]) == [] by {
      assert parts[1..] == [""];
      assert Strip("") == "";
    }
    assert ':' in header by {
      assert header[|title|] == ':';
    }
    var closed := if st.active != "" then ParserState("", [], Flush(st)) else st;
    assert closed.(active := Lower(title)) == ParserState(Lower(title), [], Flush(st));
    assert Step(st, header) == Ok(closed.(active := Lower(parts[0])));
  }

  /** `title:` followed by colon-free lines stores exactly those lines
      under the lowercased title, whatever was open before. */
  lemma BlockStored(st: ParserState, title: string, values: seq<string>)
    requires Tidy(st)
    requires ':' !in title && Lower(title) != ""
    requires forall k :: 0 <= k < |values| ==> ':' !in values[k]
    ensures Run(st, [title + ":"] + values).Ok?
    ensures var fields := Flush(Run(st, [title + ":"] + values).value);
            Lower(title) in fields && fields[Lower(title)] == values
  {
    var header := title + ":";
    HeaderOpensBlock(st, title);
    var single: seq<string> := [header];
    assert single[..0] == [];
    assert Run(st, single) == Step(st, header);
    var afterHeader := ParserState(Lower(title), [], Flush(st));
    RunAppend(st, single, values);
    BlockCollects(afterHeader, values);
    assert [] + values == values;
  }

  /** `title: words` stores the words under the lowercased title and
      leaves no block open. */
  lemma OneValueHeader(st: ParserState, title: string, value: string)
    requires ':' !in title && ':' !in value && Strip(value) != ""
    ensures Step(st, title + ":" + value).Ok?
    ensures Step(st, title + ":" + value).value.active == ""
    ensures var fields := Step(st, title + ":" + value).value.out;
            Lower(title) in fields && fields[Lower(title)] == SplitWs(Strip(value))
  {
    var line := title + ":" + value;
    assert SplitOn(line, ':') == [title, value] by {
      SplitOnFirst(title, ':', value);
      assert line == title + [':'] + value;
      SplitOnNone(value, ':');
    }
    assert HeaderValues([value]) == [Strip(value)];
    assert ':' in line by {
      assert line[|title|] == ':';
    }
  }

  /** A later header for the same key replaces the earlier one. */
  lemma RepeatedKeyOverwrites(st: ParserState, title: string, first: string, second: string)
    requires ':' !in title && ':' !in first && ':' !in second
    requires Strip(first) != "" && Strip(second) != ""
    ensures Run(st, [title + ":" + first, title + ":" + second]).Ok?
    ensures var fields := Flush(Run(st, [title + ":" + first, title + ":" + second]).value);
            Lower(title) in fields && fields[Lower(title)] == SplitWs(Strip(second))
  {
    var a := title + ":" + first;
    var b := title + ":" + second;
    OneValueHeader(st, title, first);
    var s1 := Step(st, a).value;
    OneValueHeader(s1, title, second);
    assert [a, b][..1] == [a];
    var single: seq<string> := [a];
    assert single[..0] == [];
    assert Run(st, [a]) == Step(st, a);
  }
}
