/** What the scanner does, stated in terms of positions in the file text, and the guarantee it gives the
    parser. */
module ScanProperties {
  import opened Wrappers
  import opened Symbols
  import opened Tokens
  import opened Circuit
  import opened NameTable
  import opened ScanSpec
  import ParseSpec

  /** The cursor whose current character is `text[i]` (at end of file when `i == |text|`). */
  function CursorAt(text: string, i: nat): Cursor
    requires i <= |text|
  {
    if i < |text| then Cursor(i + 1, Some(text[i])) else Cursor(|text|, None)
  }

  /** The first position at or after `i` whose character fails `p`, or the end of the text. */
  function RunEnd(text: string, i: nat, p: char -> bool): (j: nat)
    requires i <= |text|
    ensures i <= j <= |text|
    ensures forall k :: i <= k < j ==> p(text[k])
    ensures j == |text| || !p(text[j])
    decreases |text| - i
  {
    if i < |text| && p(text[i]) then RunEnd(text, i + 1, p) else i
  }

  lemma AdvanceAt(text: string, i: nat)
    requires i <= |text|
    ensures Advance(text, CursorAt(text, i)) == CursorAt(text, if i < |text| then i + 1 else i)
  {
  }

  /** `skip_spaces` stops on the first character at or after the cursor that is not white space. */
  lemma {:induction false} SkipSpacesAt(text: string, i: nat)
    requires i <= |text|
    ensures SkipSpaces(text, CursorAt(text, i)) == CursorAt(text, RunEnd(text, i, IsSpace))
    decreases |text| - i
  {
    if i < |text| && IsSpace(text[i]) {
      AdvanceAt(text, i);
      SkipSpacesAt(text, i + 1);
    }
  }

  /** `get_name` returns the maximal run of letters and digits at the cursor and stops on the character
      after it. */
  lemma {:induction false} NameRunAt(text: string, i: nat)
    requires i <= |text|
    ensures NameRun(text, CursorAt(text, i)) == (text[i..RunEnd(text, i, IsAlnum)], CursorAt(text, RunEnd(text, i, IsAlnum)))
    decreases |text| - i
  {
    if i < |text| && IsAlnum(text[i]) {
      AdvanceAt(text, i);
      NameRunAt(text, i + 1);
      var j := RunEnd(text, i, IsAlnum);
      assert j == RunEnd(text, i + 1, IsAlnum);
      assert NameRun(text, CursorAt(text, i)) == ([text[i]] + NameRun(text, CursorAt(text, i + 1)).0, NameRun(text, CursorAt(text, i + 1)).1);
      assert [text[i]] + text[i + 1..j] == text[i..j];
    } else {
      assert RunEnd(text, i, IsAlnum) == i;
      assert text[i..i] == "";
    }
  }

  /** `get_number` reads the maximal run of digits at the cursor and stops on the character after it. */
  lemma {:induction false} DigitRunAt(text: string, i: nat)
    requires i <= |text|
    ensures DigitRun(text, CursorAt(text, i)) == (text[i..RunEnd(text, i, IsDigit)], CursorAt(text, RunEnd(text, i, IsDigit)))
    decreases |text| - i
  {
    if i < |text| && IsDigit(text[i]) {
      AdvanceAt(text, i);
      DigitRunAt(text, i + 1);
      var j := RunEnd(text, i, IsDigit);
      assert j == RunEnd(text, i + 1, IsDigit);
      assert DigitRun(text, CursorAt(text, i)) == ([text[i]] + DigitRun(text, CursorAt(text, i + 1)).0, DigitRun(text, CursorAt(text, i + 1)).1);
      assert [text[i]] + text[i + 1..j] == text[i..j];
    } else {
      assert RunEnd(text, i, IsDigit) == i;
      assert text[i..i] == "";
    }
  }

  /** The digits of a run are all digits. */
  lemma DigitSlice(text: string, j: nat)
    requires j <= |text|
    ensures forall m :: 0 <= m < |text[j..RunEnd(text, j, IsDigit)]| ==> IsDigit(text[j..RunEnd(text, j, IsDigit)][m])
  {
    var k := RunEnd(text, j, IsDigit);
    forall m | 0 <= m < |text[j..k]| ensures IsDigit(text[j..k][m]) {
      assert text[j..k][m] == text[j + m];
    }
  }

  /** `get_symbol` at end of file answers EOF and consumes nothing. */
  lemma NextSymbolAtEof(text: string, table: seq<string>, i: nat)
    requires i <= |text| && RunEnd(text, i, IsSpace) == |text|
    ensures NextSymbol(text, ScanState(CursorAt(text, i), table)) == (EofSymbol, ScanState(CursorAt(text, |text|), table))
  {
    SkipSpacesAt(text, i);
  }

  /** The information separators `\x1c` to `\x1f` are white space to `isspace`: a file holding nothing else
      scans as EOF. */
  lemma SeparatorsAreSpace(table: seq<string>)
    ensures var text := "\U{1C}\U{1D}\U{1E}\U{1F} ";
      NextSymbol(text, ScanState(CursorAt(text, 0), table)).0 == EofSymbol
  {
    var text := "\U{1C}\U{1D}\U{1E}\U{1F} ";
    assert RunEnd(text, 5, IsSpace) == 5;
    assert RunEnd(text, 0, IsSpace) == 5;
    NextSymbolAtEof(text, table, 0);
  }

  /** A letter starts a name: the maximal run of letters and digits, a reserved word exactly when the run
      is in `Keywords`, its id the one the name table gives it. */
  lemma NextSymbolAtName(text: string, table: seq<string>, i: nat)
    requires i <= |text|
    requires RunEnd(text, i, IsSpace) < |text| && IsAlpha(text[RunEnd(text, i, IsSpace)])
    ensures var j := RunEnd(text, i, IsSpace);
            var k := RunEnd(text, j, IsAlnum);
            var name := text[j..k];
            NextSymbol(text, ScanState(CursorAt(text, i), table))
            == (Symbol(Some(if name in Keywords then Keyword else Name), Some(Intern(table, name).0), ""),
                ScanState(CursorAt(text, k), Intern(table, name).1))
  {
    var j := RunEnd(text, i, IsSpace);
    SkipSpacesAt(text, i);
    NameRunAt(text, j);
  }

  /** A digit starts a number: the maximal run of digits with its value; the character after the run is
      consumed too. */
  lemma NextSymbolAtNumber(text: string, table: seq<string>, i: nat)
    requires i <= |text|
    requires RunEnd(text, i, IsSpace) < |text| && IsDigit(text[RunEnd(text, i, IsSpace)])
    ensures var j := RunEnd(text, i, IsSpace);
            var k := RunEnd(text, j, IsDigit);
            NextSymbol(text, ScanState(CursorAt(text, i), table))
            == (Symbol(Some(Number), Some(DigitsValue(text[j..k])), text[j..k]),
                ScanState(CursorAt(text, if k < |text| then k + 1 else k), table))
  {
    var j := RunEnd(text, i, IsSpace);
    var k := RunEnd(text, j, IsDigit);
    SkipSpacesAt(text, i);
    DigitRunAt(text, j);
    AdvanceAt(text, k);
  }

  /** Any other character is one symbol on its own: `;`, `>`, `.` and `,` have their types, anything else
      has none; exactly that character is consumed. */
  lemma NextSymbolAtOther(text: string, table: seq<string>, i: nat)
    requires i <= |text|
    requires RunEnd(text, i, IsSpace) < |text| && !IsAlnum(text[RunEnd(text, i, IsSpace)])
    ensures var j := RunEnd(text, i, IsSpace);
            NextSymbol(text, ScanState(CursorAt(text, i), table))
            == (Symbol(PunctuationType(text[j]), None, ""), ScanState(CursorAt(text, j + 1), table))
  {
    var j := RunEnd(text, i, IsSpace);
    SkipSpacesAt(text, i);
    AdvanceAt(text, j);
  }

  /** Once at end of file the scanner stays there: every further call answers EOF again. */
  lemma EofRepeats(text: string, s: ScanState)
    requires NextSymbol(text, s).0 == EofSymbol
    ensures NextSymbol(text, NextSymbol(text, s).1) == NextSymbol(text, s)
  {
  }

  /** A name scanned twice gets the same id both times, however many names were interned in between. */
  lemma {:induction false} SameNameSameId(table: seq<string>, name: string, between: seq<string>)
    requires Distinct(table)
    ensures var (id1, t1) := Intern(table, name);
            var t2 := InternAll(t1, between).1;
            Distinct(t2) && Intern(t2, name).0 == id1
    decreases |between|
  {
    var (id1, t1) := Intern(table, name);
    InternDistinct(table, name);
    InternAllDistinct(t1, between);
    var t2 := InternAll(t1, between).1;
    assert t2[..|t1|] == t1;
    assert t2[id1] == name;
  }

  lemma {:induction false} InternAllDistinct(table: seq<string>, strings: seq<string>)
    requires Distinct(table)
    ensures Distinct(InternAll(table, strings).1)
    decreases |strings|
  {
    if strings != [] {
      var front := strings[..|strings| - 1];
      InternAllDistinct(table, front);
      InternDistinct(InternAll(table, front).1, strings[|strings| - 1]);
    }
  }

  /** The reserved words are ten different strings. */
  lemma KeywordsDistinct()
    ensures Distinct(Keywords)
  {
  }

  /** Starting from an empty name table, the reserved words get the ids 0 to 9 in the order of `Keywords`;
      the names of the file come after them. */
  lemma KeywordIds()
    ensures InternAll([], Keywords).1 == Keywords
    ensures forall k :: 0 <= k < |Keywords| ==> InternAll([], Keywords).0[k] == k
  {
    KeywordsDistinct();
    assert [] + Keywords == Keywords;
    InternAllFresh([], Keywords);
  }

  /** What the scanner state must satisfy for its symbols to be ids the parser knows: the table starts
      with the reserved words and has no duplicates. */
  predicate TableWf(table: seq<string>) {
    |Keywords| <= |table| && table[..|Keywords|] == Keywords && Distinct(table)
  }

  /** The reserved-word map of the parser that matches the ids the scanner gives: id `k` starts the
      statement of the reserved word `Keywords[k]`, and no other id starts a statement. */
  predicate KeywordsKnown(env: Env) {
    env.keywords == map k | 0 <= k < |Keywords| :: KeywordStatements[k]
  }

  /** With that map, the reserved word with id `k` starts its own statement in both releases of the
      parser. */
  lemma KeywordDispatch(env: Env, v: ParseSpec.Variant, k: int)
    requires KeywordsKnown(env) && 0 <= k < |Keywords|
    ensures ParseSpec.StatementOf(v, env, Symbol(Some(Keyword), Some(k), "")) == Some(KeywordStatements[k])
  {
    assert KeywordStatements[k] in KeywordStatements;
  }

  /** With that map, a symbol whose id is not a reserved word's starts no statement. */
  lemma NoOtherDispatch(env: Env, v: ParseSpec.Variant, s: Symbol)
    requires KeywordsKnown(env) && (s.id.None? || s.id.value < 0 || s.id.value >= |Keywords|)
    ensures ParseSpec.StatementOf(v, env, s) == None
  {
  }

  lemma NextSymbolWf(env: Env, text: string, s: ScanState)
    requires TableWf(s.table) && KeywordsKnown(env)
    ensures TableWf(NextSymbol(text, s).1.table)
    ensures !IsType(NextSymbol(text, s).0, Eof) ==> ParseSpec.SymbolWf(env, NextSymbol(text, s).0)
  {
    var c := SkipSpaces(text, s.cursor);
    if c.current.Some? && IsAlpha(c.current.value) {
      var name := NameRun(text, c).0;
      InternDistinct(s.table, name);
      var t := Intern(s.table, name).1;
      assert t[..|Keywords|] == (t[..|s.table|])[..|Keywords|];
      if name in Keywords {
        var idx :| 0 <= idx < |Keywords| && Keywords[idx] == name;
        assert s.table[idx] == name;
        assert t == s.table;
      }
    }
  }

  /** Given a well-formed table, the scanner's symbols up to EOF are a stream the parser accepts. */
  lemma {:induction false} TokenizeWf(env: Env, text: string, s: ScanState)
    requires TableWf(s.table) && KeywordsKnown(env)
    ensures ParseSpec.InputWf(env, Tokenize(text, s).0)
    decreases Left(text, s.cursor)
  {
    var (sym, s1) := NextSymbol(text, s);
    NextSymbolWf(env, text, s);
    if !IsType(sym, Eof) {
      TokenizeWf(env, text, s1);
    }
  }

  /** On a fresh name table the constructor leaves exactly the reserved words in it, and (corrected) the
      cursor on the first character. */
  lemma InitialFresh(text: string)
    ensures Initial(text, []) == ScanState(CursorAt(text, 0), Keywords)
  {
    KeywordIds();
  }

  lemma KeywordsTableWf()
    ensures TableWf(Keywords)
  {
    KeywordsDistinct();
    assert Keywords[..|Keywords|] == Keywords;
  }

  /** The scanner built on a fresh name table reads the first character, and the whole file's symbols are
      a stream the parser accepts. */
  lemma ScannerFeedsParser(env: Env, text: string)
    requires KeywordsKnown(env)
    ensures Initial(text, []).cursor == CursorAt(text, 0)
    ensures ParseSpec.InputWf(env, Tokenize(text, Initial(text, [])).0)
  {
    InitialFresh(text);
    KeywordsTableWf();
    TokenizeWf(env, text, ScanState(CursorAt(text, 0), Keywords));
  }

  /** As written the constructor leaves `current_character` empty, so the first `get_symbol` answers EOF
      whatever the file holds, and the parser sees no statement at all. */
  lemma InitialAsWrittenIsEof(text: string, table: seq<string>)
    ensures NextSymbol(text, InitialAsWritten(text, table)).0 == EofSymbol
    ensures Tokenize(text, InitialAsWritten(text, table)).0 == []
  {
  }

  /** The symbol a fresh scanner with its cursor on the first character of `SWITCH` answers. */
  lemma SwitchScansAsKeyword()
    ensures NextSymbol("SWITCH", ScanState(CursorAt("SWITCH", 0), Keywords)).0 == Symbol(Some(Keyword), Some(1), "")
  {
    var text := "SWITCH";
    assert RunEnd(text, 0, IsSpace) == 0;
    assert RunEnd(text, 0, IsAlnum) == 6 by {
      assert forall k :: 0 <= k < 6 ==> IsAlnum(text[k]);
      assert RunEnd(text, 6, IsAlnum) == 6;
    }
    assert text[0..6] == Keywords[1];
    assert Find(Keywords, text) == 1;
    NextSymbolAtName(text, Keywords, 0);
  }

  /** With the first character read, a file that starts with a reserved word yields it as the first
      symbol; a file holding only `SWITCH` shows the difference. */
  lemma InitialReadsFirstSymbol()
    ensures NextSymbol("SWITCH", Initial("SWITCH", [])).0 == Symbol(Some(Keyword), Some(1), "")
    ensures NextSymbol("SWITCH", InitialAsWritten("SWITCH", [])).0 == EofSymbol
  {
    InitialFresh("SWITCH");
    SwitchScansAsKeyword();
    InitialAsWrittenIsEof("SWITCH", []);
  }
}
