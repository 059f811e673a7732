/** `get_position` of logsim/tests.py: the line and column of the file position a symbol was read up to,
    computed from the characters before it. */
module Position {
  /** `contents.count('\n')` */
  function CountNewlines(s: string): (n: nat)
    ensures n <= |s|
    ensures n == 0 <==> '\n' !in s
  {
    if s == [] then 0
    else
      assert s == s[..|s| - 1] + [s[|s| - 1]];
      CountNewlines(s[..|s| - 1]) + (if s[|s| - 1] == '\n' then 1 else 0)
  }

  /** `s.rfind(c)`: the last index holding `c`, or -1. */
  function RFind(s: string, c: char): (i: int)
    ensures -1 <= i < |s|
    ensures 0 <= i ==> s[i] == c
    ensures forall k :: i < k < |s| ==> s[k] != c
  {
    if s == [] then -1
    else if s[|s| - 1] == c then |s| - 1
    else RFind(s[..|s| - 1], c)
  }

  /** The line (from 1) and the column (from 0) reached after reading `prefix`. */
  datatype LineColumn = LineColumn(line: int, column: int)

  /** The arithmetic of `get_position`: one more than the number of newlines, and the distance from the
      last newline. */
  function LinePosition(prefix: string): LineColumn {
    LineColumn(CountNewlines(prefix) + 1, |prefix| - RFind(prefix, '\n') - 1)
  }

  /** The line number is at least 1, the column lies within the prefix, and a prefix without a newline is
      all on line 1 with its length as column. */
  lemma LinePositionBounds(prefix: string)
    ensures LinePosition(prefix).line >= 1
    ensures 0 <= LinePosition(prefix).column <= |prefix|
    ensures '\n' !in prefix ==> LinePosition(prefix) == LineColumn(1, |prefix|)
  {
    if '\n' !in prefix {
      assert RFind(prefix, '\n') == -1;
    }
  }

  /** The column counts exactly the characters after the last newline: none of them is a newline, and the
      character before them is one, unless they are the whole prefix. */
  lemma ColumnAfterLastNewline(prefix: string)
    ensures var col := LinePosition(prefix).column;
            0 <= col <= |prefix|
            && (forall k :: |prefix| - col <= k < |prefix| ==> prefix[k] != '\n')
            && (col < |prefix| ==> prefix[|prefix| - col - 1] == '\n')
  {
  }

  /** A reference reading: walking the characters one by one, a newline starts the next line at column 0,
      and any other character moves one column on. */
  function Walk(s: string): (r: LineColumn)
  {
    if s == [] then LineColumn(1, 0)
    else
      var before := Walk(s[..|s| - 1]);
      if s[|s| - 1] == '\n' then LineColumn(before.line + 1, 0) else LineColumn(before.line, before.column + 1)
  }

  /** `get_position`'s counting agrees with walking the prefix character by character. */
  lemma {:induction false} LinePositionIsWalk(s: string)
    ensures LinePosition(s) == Walk(s)
  {
    if s != [] {
      var p := s[..|s| - 1];
      LinePositionIsWalk(p);
      assert s == p + [s[|s| - 1]];
      if s[|s| - 1] != '\n' {
        assert RFind(s, '\n') == RFind(p, '\n');
      }
    }
  }

  /** The position fields of a symbol. */
  class PositionedSymbol {
    var linenum: int
    var linepos: int

    constructor ()
      ensures linenum == 0 && linepos == 0
    {
      linenum := 0;
      linepos := 0;
    }
  }

  /** `get_position(symbol)`: the file has been read up to `position`; only the symbol's line and column
      are written. */
  method GetPosition(contents: string, position: nat, symbol: PositionedSymbol)
    requires position <= |contents|
    modifies symbol`linenum, symbol`linepos
    ensures LinePosition(contents[..position]) == LineColumn(symbol.linenum, symbol.linepos)
  {
    var prefix := contents[..position];
    var linenum := CountNewlines(prefix) + 1;
    var linepos := position - RFind(prefix, '\n') - 1;
    symbol.linenum := linenum;
    symbol.linepos := linepos;
  }
}
