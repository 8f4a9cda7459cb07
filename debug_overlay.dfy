/** The debug overlay of DebugOverlay.cpp: a ring of MAX_DEBUG_LINES text
    lines of at most MAX_LINE_LENGTH - 1 characters, where each print
    overwrites the oldest line and the overlay shows the non-empty lines
    oldest first, one per row. The text a print receives is the already
    formatted string; the LVGL label it is handed to is left out. A
    character stands for one C `char`, a byte: lengths and truncation count
    bytes, and multi-byte UTF-8 text is not modelled as such. */
module DebugOverlayModel {
  import opened CArith

  const MAX_DEBUG_LINES: int := 10
  const MAX_LINE_LENGTH: int := 50

  /** The size debug_print gives its output buffer, full_buffer. */
  const FULL_BUFFER_AS_WRITTEN: int := MAX_DEBUG_LINES * MAX_LINE_LENGTH

  /** The size the output buffer needs: every line at its longest, each
      with its newline, and the terminating NUL. */
  const FULL_BUFFER_SIZE: int := MAX_DEBUG_LINES * MAX_LINE_LENGTH + 1

  /** The C string a character sequence denotes: everything before the
      first NUL. */
  function UntilNul(s: string): (r: string)
    ensures r <= s && '\0' !in r
    ensures |r| < |s| ==> s[|r|] == '\0'
    decreases |s|
  {
    if s == [] || s[0] == '\0' then ""
    else
      var rest := UntilNul(s[1..]);
      assert [s[0]] + s[1..] == s;
      [s[0]] + rest
  }

  /** A sequence without a NUL is its own C string. */
  lemma {:induction false} UntilNulOfCString(s: string)
    requires '\0' !in s
    ensures UntilNul(s) == s
    decreases |s|
  {
    if s != [] {
      assert s[0] in s;
      assert forall c :: c in s[1..] ==> c in s;
      UntilNulOfCString(s[1..]);
      assert [s[0]] + s[1..] == s;
    }
  }

  /** What vsnprintf(line, MAX_LINE_LENGTH, ...) leaves in a line for the
      formatted text: the longest NUL-free prefix of the text that has at
      most MAX_LINE_LENGTH - 1 characters. */
  function StoredLine(text: string): (line: string)
    ensures line <= text && '\0' !in line && |line| <= MAX_LINE_LENGTH - 1
    ensures |line| < MAX_LINE_LENGTH - 1 ==> |line| == |text| || text[|line|] == '\0'
  {
    var c := UntilNul(text);
    c[..MinInt(|c|, MAX_LINE_LENGTH - 1)]
  }

  /** A line as a print can leave it. */
  predicate IsLine(l: string)
  {
    |l| <= MAX_LINE_LENGTH - 1 && '\0' !in l
  }

  /** A line as the overlay shows it: nothing for an empty line, otherwise
      the line and a newline. */
  function Shown(l: string): string
  {
    if l == "" then "" else l + "\n"
  }

  /** The lines ls shown one after another. */
  function Joined(ls: seq<string>): string
    decreases |ls|
  {
    if ls == [] then "" else Joined(ls[..|ls| - 1]) + Shown(ls[|ls| - 1])
  }

  /** The last min(k, MAX_DEBUG_LINES) of k prints, in print order. */
  function Recent(printed: seq<string>): (r: seq<string>)
    ensures |r| == MinInt(|printed|, MAX_DEBUG_LINES)
    ensures r == printed[|printed| - |r|..]
  {
    printed[|printed| - MinInt(|printed|, MAX_DEBUG_LINES)..]
  }

  /** What the overlay shows after the prints since the last clear: the
      non-empty lines among the last MAX_DEBUG_LINES prints, in print
      order, each followed by a newline. */
  function Render(printed: seq<string>): string
  {
    Joined(Recent(printed))
  }

  /** The slot i steps newer than the oldest one, (current + i) % MAX_DEBUG_LINES. */
  function LineSlot(current: int, i: int): (slot: int)
    requires 0 <= current < MAX_DEBUG_LINES && 0 <= i < MAX_DEBUG_LINES
    ensures 0 <= slot < MAX_DEBUG_LINES && slot == (current + i) % MAX_DEBUG_LINES
  {
    if current + i < MAX_DEBUG_LINES then current + i else current + i - MAX_DEBUG_LINES
  }

  /** The line the i-th slot from the oldest holds after the prints: the
      print MAX_DEBUG_LINES - i back from the end, or an empty line when
      there were not that many. */
  function Slot(printed: seq<string>, i: int): string
    requires 0 <= i < MAX_DEBUG_LINES
  {
    var j := |printed| - MAX_DEBUG_LINES + i;
    if j >= 0 then printed[j] else ""
  }

  /** Slot by slot, the line array a holds the prints, the oldest in slot
      current. */
  predicate LinesHold(a: seq<string>, current: int, printed: seq<string>)
  {
    && |a| == MAX_DEBUG_LINES && 0 <= current < MAX_DEBUG_LINES
    && forall i :: 0 <= i < MAX_DEBUG_LINES ==> a[LineSlot(current, i)] == Slot(printed, i)
  }

  /** debug_print's write: the text goes into the oldest slot and the next
      slot becomes the oldest, which is one more print. */
  lemma {:induction false} LinesAfterPrint(a: seq<string>, current: int, printed: seq<string>, line: string)
    requires LinesHold(a, current, printed)
    ensures LinesHold(a[current := line], (current + 1) % MAX_DEBUG_LINES, printed + [line])
  {
    var a', next, p' := a[current := line], (current + 1) % MAX_DEBUG_LINES, printed + [line];
    forall i | 0 <= i < MAX_DEBUG_LINES
      ensures a'[LineSlot(next, i)] == Slot(p', i)
    {
      if i == MAX_DEBUG_LINES - 1 {
        assert LineSlot(next, i) == current;
      } else {
        assert LineSlot(next, i) == LineSlot(current, i + 1) != current;
        assert Slot(p', i) == Slot(printed, i + 1);
      }
    }
  }

  /** Every slot's line, oldest first. */
  function Slots(printed: seq<string>): (s: seq<string>)
    ensures |s| == MAX_DEBUG_LINES
    ensures forall i :: 0 <= i < MAX_DEBUG_LINES ==> s[i] == Slot(printed, i)
  {
    seq(MAX_DEBUG_LINES, i requires 0 <= i < MAX_DEBUG_LINES => Slot(printed, i))
  }

  /** The slots are empty lines, as many as there were fewer prints than
      slots, followed by the recent prints. */
  lemma SlotsAreRecent(printed: seq<string>)
    ensures var r := Recent(printed);
      Slots(printed) == seq(MAX_DEBUG_LINES - |r|, _ => "") + r
  {
    var r := Recent(printed);
    var pad := seq(MAX_DEBUG_LINES - |r|, _ => "");
    forall i | 0 <= i < MAX_DEBUG_LINES
      ensures Slots(printed)[i] == (pad + r)[i]
    {
      if i >= |pad| {
        assert (pad + r)[i] == r[i - |pad|];
      }
    }
  }

  /** Empty lines show nothing. */
  lemma {:induction false} JoinedBlank(blank: seq<string>)
    requires forall i :: 0 <= i < |blank| ==> blank[i] == ""
    ensures Joined(blank) == ""
    decreases |blank|
  {
    if blank != [] {
      JoinedBlank(blank[..|blank| - 1]);
    }
  }

  /** Leading empty lines show nothing. */
  lemma {:induction false} JoinedAfterBlank(blank: seq<string>, ls: seq<string>)
    requires forall i :: 0 <= i < |blank| ==> blank[i] == ""
    ensures Joined(blank + ls) == Joined(ls)
    decreases |ls|
  {
    if ls == [] {
      assert blank + ls == blank;
      JoinedBlank(blank);
    } else {
      JoinedAfterBlank(blank, ls[..|ls| - 1]);
      assert (blank + ls)[..|blank + ls| - 1] == blank + ls[..|ls| - 1];
    }
  }

  /** Showing every slot from the oldest is showing Render of the prints. */
  lemma RenderHistory(printed: seq<string>)
    ensures Joined(Slots(printed)) == Render(printed)
  {
    SlotsAreRecent(printed);
    var r := Recent(printed);
    JoinedAfterBlank(seq(MAX_DEBUG_LINES - |r|, _ => ""), r);
  }

  /** Each line takes at most MAX_LINE_LENGTH characters with its newline. */
  lemma {:induction false} JoinedLength(ls: seq<string>)
    requires forall l :: l in ls ==> IsLine(l)
    ensures |Joined(ls)| <= |ls| * MAX_LINE_LENGTH
    decreases |ls|
  {
    if ls != [] {
      JoinedLength(ls[..|ls| - 1]);
      assert ls[|ls| - 1] in ls;
    }
  }

  /** Corrected capacity: whatever was printed, the shown text and its
      terminating NUL fit in FULL_BUFFER_SIZE characters. */
  lemma RenderFits(printed: seq<string>)
    requires forall l :: l in printed ==> IsLine(l)
    ensures |Render(printed)| + 1 <= FULL_BUFFER_SIZE
  {
    var r := Recent(printed);
    assert forall l :: l in r ==> l in printed;
    JoinedLength(r);
  }

  /** The same non-empty line n times takes n times its length plus one. */
  lemma {:induction false} JoinedRepeated(ls: seq<string>, l: string)
    requires l != [] && forall i :: 0 <= i < |ls| ==> ls[i] == l
    ensures |Joined(ls)| == |ls| * (|l| + 1)
    decreases |ls|
  {
    if ls != [] {
      var init := ls[..|ls| - 1];
      JoinedRepeated(init, l);
      assert ls[|ls| - 1] == l;
      assert |Joined(ls)| == |Joined(init)| + |l| + 1;
      Distribute(|ls|, 1, |l| + 1);
    }
  }

  /** As written, full_buffer holds FULL_BUFFER_AS_WRITTEN characters: ten
      prints of a 49-character line make the shown text 500 characters, so
      it and its terminating NUL need 501, one more than the buffer has. */
  lemma AsWrittenOverflows()
    ensures var line := seq(MAX_LINE_LENGTH - 1, _ => 'x');
      var printed := seq(MAX_DEBUG_LINES, _ => StoredLine(line));
      && StoredLine(line) == line
      && |Render(printed)| + 1 == FULL_BUFFER_AS_WRITTEN + 1
  {
    var line := seq(MAX_LINE_LENGTH - 1, _ => 'x');
    assert '\0' !in line;
    UntilNulOfCString(line);
    var printed := seq(MAX_DEBUG_LINES, _ => StoredLine(line));
    assert Recent(printed) == printed;
    JoinedRepeated(printed, line);
  }

  /** The static debug_buffer and current_line. */
  class DebugOverlay {
    const lines: array<string>
    var currentLine: int

    /** The lines printed since the last clear, oldest first. */
    ghost var Printed: seq<string>

    ghost predicate Valid()
      reads this, lines
    {
      && LinesHold(lines[..], currentLine, Printed)
      && forall l :: l in Printed ==> IsLine(l)
    }

    /** The zero-initialised statics: every line empty, current_line 0. */
    constructor ()
      ensures Valid() && Printed == [] && currentLine == 0
      ensures forall i :: 0 <= i < lines.Length ==> lines[i] == ""
    {
      lines := new string[MAX_DEBUG_LINES](_ => "");
      currentLine := 0;
      Printed := [];
    }

    /** debug_print: the formatted text is stored, truncated, in the slot
        current_line, which then advances modulo MAX_DEBUG_LINES; the
        returned text, the one handed to the label, is Render of the prints,
        and with its NUL it fits in FULL_BUFFER_SIZE. */
    method DebugPrint(text: string) returns (shown: string)
      requires Valid()
      modifies this, lines
      ensures Valid()
      ensures Printed == old(Printed) + [StoredLine(text)]
      ensures lines[old(currentLine)] == StoredLine(text)
      ensures currentLine == (old(currentLine) + 1) % MAX_DEBUG_LINES
      ensures forall i :: 0 <= i < MAX_DEBUG_LINES && i != old(currentLine) ==> lines[i] == old(lines[i])
      ensures shown == Render(Printed) && |shown| + 1 <= FULL_BUFFER_SIZE
    {
      var line := StoredLine(text);
      LinesAfterPrint(lines[..], currentLine, Printed, line);
      lines[currentLine] := line;
      currentLine := (currentLine + 1) % MAX_DEBUG_LINES;
      Printed := Printed + [line];
      shown := RenderLines();
    }

    /** The rendering half of debug_print: the slots are walked from
        current_line, the oldest, wrapping around, and every non-empty line
        is appended with a newline; the result is Render of the prints and,
        with its NUL, fits in FULL_BUFFER_SIZE. */
    method RenderLines() returns (full: string)
      requires Valid()
      ensures full == Render(Printed) && |full| + 1 <= FULL_BUFFER_SIZE
    {
      full := "";
      var i := 0;
      while i < MAX_DEBUG_LINES
        invariant 0 <= i <= MAX_DEBUG_LINES
        invariant full == Joined(Slots(Printed)[..i])
      {
        var line := SlotLine(i);
        if line != "" {
          full := full + line + "\n";
        }
        ghost var shownSlots := Slots(Printed)[..i + 1];
        assert shownSlots[..i] == Slots(Printed)[..i] && shownSlots[i] == line;
        i := i + 1;
      }
      assert Slots(Printed)[..MAX_DEBUG_LINES] == Slots(Printed);
      RenderHistory(Printed);
      RenderFits(Printed);
    }

    /** The line in slot (current_line + i) % MAX_DEBUG_LINES, the i-th
        from the oldest. */
    function SlotLine(i: int): (line: string)
      requires Valid() && 0 <= i < MAX_DEBUG_LINES
      reads this, lines
      ensures line == Slot(Printed, i)
    {
      assert (currentLine + i) % MAX_DEBUG_LINES == LineSlot(currentLine, i);
      lines[(currentLine + i) % MAX_DEBUG_LINES]
    }

    /** debug_clear: every line emptied, current_line back to 0. */
    method DebugClear()
      requires Valid()
      modifies this, lines
      ensures Valid() && Printed == [] && currentLine == 0
      ensures forall i :: 0 <= i < lines.Length ==> lines[i] == ""
    {
      var i := 0;
      while i < MAX_DEBUG_LINES
        invariant 0 <= i <= MAX_DEBUG_LINES
        invariant forall j :: 0 <= j < i ==> lines[j] == ""
      {
        lines[i] := "";
        i := i + 1;
      }
      currentLine := 0;
      Printed := [];
    }
  }
}
