/** The `Scanner` object of logsim/scanner.py: a cursor over the file text, updated one character at a
    time, with the name table it interns names in. Every method is proved to do what the function of the
    same name in ScanSpec says. */
module Scanner {
  import opened Wrappers
  import opened Symbols
  import opened Tokens
  import opened NameTable
  import opened ScanSpec

  class Scanner {
    /** The file's contents; `pos` characters of it have been read. */
    const text: string
    const names: Names
    /** The ids of the reserved words, `CONNECT_ID` to `XOR_ID` in the order of `Keywords`. */
    const keywordIds: seq<nat>
    var pos: nat
    var currentCharacter: Option<char>

    function Cursor(): ScanSpec.Cursor
      reads this
    {
      ScanSpec.Cursor(pos, currentCharacter)
    }

    function State(): ScanState
      reads this, names
    {
      ScanState(Cursor(), names.nameList)
    }

    /** Interns the reserved words and reads the first character. */
    constructor (text: string, names: Names)
      modifies names
      ensures this.text == text && this.names == names
      ensures (keywordIds, names.nameList) == InternAll(old(names.nameList), Keywords)
      ensures State() == Initial(text, old(names.nameList))
    {
      this.text := text;
      this.names := names;
      var ids := names.Lookup(Keywords);
      keywordIds := ids;
      pos := 0;
      currentCharacter := None;
      new;
      Advance();
    }

    /** `advance()` */
    method Advance()
      modifies this
      ensures State() == ScanState(ScanSpec.Advance(text, old(Cursor())), old(names.nameList))
    {
      if pos < |text| {
        currentCharacter := Some(text[pos]);
        pos := pos + 1;
      } else {
        currentCharacter := None;
      }
    }

    /** `skip_spaces()` */
    method SkipSpaces()
      modifies this
      ensures State() == ScanState(ScanSpec.SkipSpaces(text, old(Cursor())), old(names.nameList))
    {
      while currentCharacter.Some? && IsSpace(currentCharacter.value)
        invariant ScanSpec.SkipSpaces(text, Cursor()) == ScanSpec.SkipSpaces(text, old(Cursor()))
        invariant names.nameList == old(names.nameList)
        decreases Left(text, Cursor())
      {
        Advance();
      }
    }

    /** `get_name()`, called on a letter. */
    method GetName() returns (name: string)
      requires currentCharacter.Some? && IsAlpha(currentCharacter.value)
      modifies this
      ensures (name, Cursor()) == NameRun(text, old(Cursor()))
      ensures names.nameList == old(names.nameList)
    {
      name := "";
      assert name + NameRun(text, Cursor()).0 == NameRun(text, Cursor()).0;
      while currentCharacter.Some? && IsAlnum(currentCharacter.value)
        invariant (name + NameRun(text, Cursor()).0, NameRun(text, Cursor()).1) == NameRun(text, old(Cursor()))
        invariant names.nameList == old(names.nameList)
        decreases Left(text, Cursor())
      {
        NameRunStep(text, Cursor(), name);
        name := name + [currentCharacter.value];
        Advance();
      }
      assert name + NameRun(text, Cursor()).0 == name;
    }

    /** `get_number()`, called on a digit: the number's value and its digits. */
    method GetNumber() returns (value: nat, digits: string)
      requires currentCharacter.Some? && IsDigit(currentCharacter.value)
      modifies this
      ensures (digits, Cursor()) == DigitRun(text, old(Cursor()))
      ensures value == DigitsValue(digits)
      ensures names.nameList == old(names.nameList)
    {
      digits := "";
      assert digits + DigitRun(text, Cursor()).0 == DigitRun(text, Cursor()).0;
      while currentCharacter.Some? && IsDigit(currentCharacter.value)
        invariant (digits + DigitRun(text, Cursor()).0, DigitRun(text, Cursor()).1) == DigitRun(text, old(Cursor()))
        invariant forall i :: 0 <= i < |digits| ==> IsDigit(digits[i])
        invariant names.nameList == old(names.nameList)
        decreases Left(text, Cursor())
      {
        DigitRunStep(text, Cursor(), digits);
        digits := digits + [currentCharacter.value];
        Advance();
      }
      assert digits + DigitRun(text, Cursor()).0 == digits;
      value := DigitsValue(digits);
    }

    /** `get_symbol()` */
    method GetSymbol() returns (sym: Symbol)
      modifies this, names
      ensures (sym, State()) == NextSymbol(text, old(State()))
    {
      SkipSpaces();
      match currentCharacter
      case None =>
        sym := EofSymbol;
      case Some(ch) =>
        if IsAlpha(ch) {
          var name := GetName();
          ghost var table := names.nameList;
          var ids := names.Lookup([name]);
          InternOne(table, name);
          sym := Symbol(Some(if name in Keywords then Keyword else Name), Some(ids[0]), "");
        } else if IsDigit(ch) {
          var value, digits := GetNumber();
          sym := Symbol(Some(Number), Some(value), digits);
          Advance();
        } else {
          Advance();
          sym := Symbol(PunctuationType(ch), None, "");
        }
    }
  }
}
