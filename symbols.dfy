/** Symbol types shared by the scanner and the parser. */
module Symbols {
  /** The eight symbol types of the definition language: `.`, `;`, `>`, `,`, reserved words, digit runs,
      other names, and end of file. */
  datatype SymbolType = Dot | Semicolon | Arrow | Comma | Keyword | Number | Name | Eof
}
