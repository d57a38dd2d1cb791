/**
 * What the core writes to the terminal, as abstract tokens rather than
 * escape text: clearing the screen (`\ec`), moving the cursor to a row and
 * column (`\e[row;colf`), setting a 24-bit foreground colour
 * (`\e[38;2;r;g;bm`), printing one character, and moving the cursor one
 * cell up (`\e[1A`) or left (`\e[1D`).
 */
module Terminal {
  import opened Numeric
  import opened ColorUtils

  /** `TerminalSize`: columns and rows of the window, as `ioctl(TIOCGWINSZ)` reports them. */
  datatype TerminalSize = TerminalSize(width: nat, height: nat)

  datatype Token = Clear | MoveTo(row: int, col: int) | Color(rgb: Rgb) | Glyph(c: char) | CursorUp | CursorLeft

  /** The output written ahead of an exception: the tokens, and the exception if one was raised. */
  datatype Printed = Printed(tokens: seq<Token>, failure: Option<Failure>)

  /** The characters printed, in order. */
  function Glyphs(t: seq<Token>): seq<char>
  {
    if |t| == 0 then [] else Glyphs(t[..|t| - 1]) + (if t[|t| - 1].Glyph? then [t[|t| - 1].c] else [])
  }

  lemma {:induction false} GlyphsAppend(a: seq<Token>, b: seq<Token>)
    ensures Glyphs(a + b) == Glyphs(a) + Glyphs(b)
  {
    if |b| > 0 {
      assert (a + b)[..|a + b| - 1] == a + b[..|b| - 1];
      GlyphsAppend(a, b[..|b| - 1]);
    } else {
      assert a + b == a;
    }
  }

  /** One token prints its character, if it is one. */
  lemma GlyphsOfToken(t: Token)
    ensures Glyphs([t]) == if t.Glyph? then [t.c] else []
  {
    assert [t][..0] == [];
  }

  /** A rung prints its character and moves up and left, never to a column. */
  lemma RungTokens(ch: char)
    ensures Glyphs([Glyph(ch), CursorUp, CursorLeft]) == [ch]
    ensures Moves([Glyph(ch), CursorUp, CursorLeft]) == []
  {
    assert [Glyph(ch), CursorUp, CursorLeft] == [Glyph(ch)] + [CursorUp] + [CursorLeft];
    GlyphsAppend([Glyph(ch)], [CursorUp]);
    GlyphsAppend([Glyph(ch)] + [CursorUp], [CursorLeft]);
    MovesAppend([Glyph(ch)], [CursorUp]);
    MovesAppend([Glyph(ch)] + [CursorUp], [CursorLeft]);
    GlyphsOfToken(Glyph(ch));
    GlyphsOfToken(CursorUp);
    GlyphsOfToken(CursorLeft);
    MovesOfToken(Glyph(ch));
    MovesOfToken(CursorUp);
    MovesOfToken(CursorLeft);
  }

  /** Writing `a`, then `b`, then `c` writes `a` followed by `b + c`. */
  lemma WritesAssociate(a: seq<Token>, b: seq<Token>, c: seq<Token>)
    ensures a + b + c == a + (b + c)
  {
  }

  /** The columns the cursor is moved to, in order. */
  function Moves(t: seq<Token>): seq<int>
  {
    if |t| == 0 then [] else Moves(t[..|t| - 1]) + (if t[|t| - 1].MoveTo? then [t[|t| - 1].col] else [])
  }

  lemma {:induction false} MovesAppend(a: seq<Token>, b: seq<Token>)
    ensures Moves(a + b) == Moves(a) + Moves(b)
  {
    if |b| > 0 {
      assert (a + b)[..|a + b| - 1] == a + b[..|b| - 1];
      MovesAppend(a, b[..|b| - 1]);
    } else {
      assert a + b == a;
    }
  }

  /** One token moves the cursor to its column, if it is a move. */
  lemma MovesOfToken(t: Token)
    ensures Moves([t]) == if t.MoveTo? then [t.col] else []
  {
    assert [t][..0] == [];
  }
}
