/**
  A line-level model of the terminal the dashboard repaints: a list of screen lines
  and a cursor row. Printing a line overwrites the line under the cursor (or adds a
  line below the last one) and moves the cursor down; the cursor-up escape moves it
  up, stopping at the top. Each frame is drawn by moving up `lines_to_move` lines
  and printing the frame's lines.
 */
module Screen {

  datatype Terminal<L> = Terminal(rows: seq<L>, cursor: nat)

  /** `\033[{n}A`: cursor up n lines, stopping at the first line. */
  function CursorUp<L>(t: Terminal<L>, n: nat): Terminal<L>
  {
    t.(cursor := if t.cursor >= n then t.cursor - n else 0)
  }

  /** `print(line)`: write the line at the cursor, then go to the next line. */
  function PrintLine<L>(t: Terminal<L>, line: L): Terminal<L>
  {
    if t.cursor < |t.rows| then Terminal(t.rows[t.cursor := line], t.cursor + 1)
    else Terminal(t.rows + [line], |t.rows| + 1)
  }

  function PrintLines<L>(t: Terminal<L>, lines: seq<L>): Terminal<L>
    decreases |lines|
  {
    if lines == [] then t else PrintLines(PrintLine(t, lines[0]), lines[1..])
  }

  /** What is left of `s` from index k on. */
  function Drop<L>(s: seq<L>, k: nat): seq<L>
  {
    if k <= |s| then s[k..] else []
  }

  /** Printing k lines from a cursor inside the screen replaces the next k lines, extending the screen if needed. */
  lemma {:induction false} PrintLinesEffect<L>(t: Terminal<L>, lines: seq<L>)
    requires t.cursor <= |t.rows|
    ensures PrintLines(t, lines)
         == Terminal(t.rows[..t.cursor] + lines + Drop(t.rows, t.cursor + |lines|), t.cursor + |lines|)
    decreases |lines|
  {
    if lines == [] {
      assert t.rows[..t.cursor] + Drop(t.rows, t.cursor) == t.rows;
    } else {
      var next := PrintLine(t, lines[0]);
      PrintLinesEffect(next, lines[1..]);
      assert next.cursor == t.cursor + 1;
      assert next.rows[..next.cursor] == t.rows[..t.cursor] + [lines[0]];
      assert Drop(next.rows, next.cursor + |lines[1..]|) == Drop(t.rows, t.cursor + |lines|);
      assert [lines[0]] + lines[1..] == lines;
    }
  }

  /** Draw one frame of a dashboard whose cursor-up count is n. */
  function ShowFrame<L>(t: Terminal<L>, n: nat, frame: seq<L>): Terminal<L>
  {
    PrintLines(CursorUp(t, n), frame)
  }

  /** n copies of one line. */
  function Repeat<L>(n: nat, line: L): seq<L>
  {
    seq(n, _ => line)
  }

  /** The n empty lines printed once before the loop (poker.py:96-97). */
  function Reserve<L>(n: nat, blank: L): (t: Terminal<L>)
  {
    PrintLines(Terminal([], 0), Repeat(n, blank))
  }

  lemma ReserveLeavesCursorBelow<L>(n: nat, blank: L)
    ensures Reserve(n, blank) == Terminal(Repeat(n, blank), n)
  {
    PrintLinesEffect(Terminal([], 0), Repeat(n, blank));
  }

  /**
    Starting from a screen of n lines with the cursor below them, a frame replaces
    the screen exactly and leaves the cursor where it was if and only if the frame
    has as many lines as the cursor is moved up.
   */
  lemma FrameExactlyOverwrites<L>(t: Terminal<L>, n: nat, frame: seq<L>)
    requires |t.rows| == n && t.cursor == n
    ensures ShowFrame(t, n, frame) == Terminal(frame, n) <==> |frame| == n
  {
    PrintLinesEffect(CursorUp(t, n), frame);
    assert t.rows[..0] == [];
    if |frame| == n {
      assert Drop(t.rows, |frame|) == [];
      assert [] + frame + [] == frame;
    }
  }

  /** The direction of FrameExactlyOverwrites that the drawing loop uses. */
  lemma FrameOverwrites<L>(t: Terminal<L>, n: nat, frame: seq<L>)
    requires |t.rows| == n && t.cursor == n && |frame| == n
    ensures ShowFrame(t, n, frame) == Terminal(frame, n)
  {
    FrameExactlyOverwrites(t, n, frame);
  }
}
