# Logic Simulator definition-file front end, modelled in Dafny

The Logic Simulator reads a circuit definition file. A file is a sequence of statements such as
`SWITCH 0 SW1, 1 SW2;`, `AND 2 G1;`, `CONNECT SW1 > G1.I1;` or `MONITOR G1;`. The definition file
flows through these pieces:

- A **scanner** turns the characters of the file into symbols. They are reserved words, names, numbers,
  `;`, `>`, `.`, `,` and end of file.
- A recursive-descent **parser** reads the statements.
  - It creates devices, connections and monitors through three collaborator objects.
  - It counts errors.
  - It recovers from an error by skipping to the next `;` or `,`. After a `,` it replays the statement's
    reserved word, which the handler had held in the scanner's `temp_queue`.
- The circuit editor writes a circuit back out as definition-file text (`create_file_string`).
- A test helper computes the line and column of a symbol (`get_position`).

Modules and what they hold:

| module | what it holds |
|---|---|
| `Symbols`, `Tokens` | Symbol types; the symbol record; the token source the parser reads from. The source holds the symbol stream and two queues: `get_symbol` drains `priority_queue` before fresh input, and `temp_queue` is a list the parser appends to and clears. |
| `Circuit` | The parser's collaborators as an abstract interface. Each device is known by its input-port and output-port sets, and every result code comes from an oracle. |
| `ScanSpec`, `Scanner` | The scanner, written twice: as functions of its cursor, and as a `Scanner` class whose methods change `current_character` one character at a time. Each method is proved to agree with the function of the same name. |
| `NameTable` | The name table the scanner interns names in. |
| `ScanProperties` | What the scanner produces, stated over positions in the text. Also proves that its symbol stream is one the parser accepts. |
| `ParseSpec`, `Parser` | The parser of both releases, written twice: as pure step functions over the parser state, and as a `Parser` class with `while` loops whose methods are proved equal to the step functions. |
| `ParseProperties` | Error accounting, where recovery resumes, the queue discipline, and what each item calls. |
| `Scenarios` | Two concrete files run through the parser model. |
| `Serialiser`, `SerialiserProperties` | The file writer, as loops proved against a functional reference, and the properties of the text it writes. |
| `Position` | `get_position`. |

There are two parser releases. The earlier one is logsim/parse.py. The later one is final/logsim/parse.py,
which adds RC and SIGGEN. `ParseSpec.Variant` selects between them:

- `release` is `Early` or `Final`;
- `fidelity` is `AsWritten` or `Corrected`. `Corrected` repairs the defects listed under Findings.

The same two-way choice of fidelity selects the serialiser's NOR guard.

Termination of the parser is proved with a lexicographic measure: unread input, then held symbols. Every
pass of the top-level loop decreases it, so every run ends at EOF.

### Where the scanner code and its evident intent differ

logsim/scanner.py cannot run as shown. It is modelled as its tests and its parser expect:

- ten reserved words in the order the tests list them (logsim/test_scanner.py:50-53), with ids 0 to 9;
- a COMMA symbol type;
- `get_symbol` returns the symbol it builds;
- `get_number` uses `isdigit`;
- `lookup` is the name table's;
- `open_file` takes `self`.

The parser treats the scanner's ids as name-table ids, and the reserved-word dispatch is an `Env` parameter.
`ScanProperties.KeywordsKnown` fixes that dispatch to the scanner's table: id `k` starts the statement of
the `k`-th reserved word, and no other id starts one (`ScanProperties.KeywordDispatch`,
`ScanProperties.NoOtherDispatch`).

Three parts of the token source are supplied by the model, because no file of the repository shows them:

- The queue-draining `get_symbol`. logsim/scanner.py has neither `priority_queue` nor `temp_queue`, and
  no scanner of the final release is part of this model. final/logsim/parse.py:488-494 only assigns the
  queues; its comment at line 489 calls the priority queue a "stack". The model hands the held symbols
  back front first, in the order the handler held them. The three-error trace of the first Findings row
  is the same under either order: popping the last held symbol first also gives three errors and no `G2`.
- The digit text of a number symbol, `Tokens.Symbol.numString`. final/logsim/parse.py:163 reads
  `self.symbol.num_string`, but logsim/scanner.py never sets it: `get_symbol` (lines 93-96) sets only the
  id and the type, and `get_number` (lines 133-143) keeps the digits in a local. `ScanSpec.NextSymbol`
  fills `numString` with the digit run the number was read from.
- The final release's RC and SIGGEN reserved words. The final parser has handlers for them
  (final/logsim/parse.py:429-474), but the ten reserved words of logsim/scanner.py's tests do not
  include them. Under `KeywordsKnown` no symbol starts an RC or SIGGEN statement. The `Scenarios` module
  uses a dispatch of its own that has a SIGGEN word.

## Model

| member | source | states |
|---|---|---|
| Tokens.Next | final/logsim/parse.py:488-494 | `get_symbol` hands out the head of `priority_queue`, then the next unread symbol, then EOF for ever without consuming anything; the pending symbols shrink by exactly the one handed out; `temp_queue` is untouched |
| Tokens.TokenSource.GetSymbol | final/logsim/parse.py:490-494 | the token source object's `get_symbol` returns the symbol `Next` gives and moves to its new state |
| ParseSpec.StatementOf | final/logsim/parse.py:65-72 | the final release starts a statement exactly on a reserved word whose id the dispatch knows; the earlier release (logsim/parse.py lines 65-86) compares only the symbol's id, whatever its type, and has no handler for RC or SIGGEN |
| ParseSpec.GetSym | final/logsim/parse.py:65 | `self.symbol = self.scanner.get_symbol()`: the current symbol and the rest of the token source are what `Tokens.Next` hands out; no event, error, flag or device changes |
| ParseSpec.GetSymAdvances | final/logsim/parse.py:65-66 | reading a symbol keeps the state invariant and strictly decreases the progress measure unless the current symbol is EOF; this is what makes every loop of the parser terminate |
| ParseSpec.Skip | final/logsim/parse.py:484-487 | the skip loop of `error()` stops on `;`, `,` or EOF, consumes only non-stopping symbols, reports nothing, and stops at once when already on a stopping symbol |
| ParseSpec.Error | final/logsim/parse.py:476-494 | `error()` sets `error_bool`, adds exactly one to `error_count`, appends exactly one report, keeps the devices, decreases the measure; the corrected recovery leaves `temp_queue` empty |
| ParseSpec.Resume | final/logsim/parse.py:488-494 | after the skip loop: on a comma the held symbols become the priority queue and `temp_queue` is emptied, then one more symbol is read unless at EOF; nothing is reported |
| ParseSpec.ParseSemicolon | final/logsim/parse.py:142-149 | a `;` is consumed silently and empties `temp_queue`; anything else is exactly `error(SEMICOLON_EXPECTED)` |
| ParseSpec.ParseArrow | final/logsim/parse.py:134-140 | on `>` it reads the next symbol and reports nothing; on anything else it is exactly `error(ARROW_EXPECTED)`; keeps the invariant, decreases the measure, keeps the devices |
| ParseSpec.ParseNumber | final/logsim/parse.py:151-158 | yields a value exactly when the symbol is a NUMBER, then its value and one symbol read; otherwise exactly `error(NUMBER_EXPECTED)` |
| ParseSpec.ParseNumberString | final/logsim/parse.py:160-167 | as `number()`, but the value is the number's digits as written |
| ParseSpec.ParseUnnamedDevice | final/logsim/parse.py:169-180 | yields an id exactly for a NAME that is not an existing device; a symbol whose id is an existing device gives DEVICE_PRESENT, anything else NAME_EXPECTED |
| ParseSpec.ParseNumberUnnamed | final/logsim/parse.py:182-191 | a number (its digits when asked for a string) then a new device name; without a number it is exactly `error(NUMBER_EXPECTED)` and the name is not looked at; no collaborator is called; on success both halves are present |
| ParseSpec.ParseDevice | final/logsim/parse.py:102-116 | yields an id exactly for a NAME that is an existing device; an unknown NAME gives DEVICE_ABSENT, a non-NAME NAME_EXPECTED |
| ParseSpec.ParseDevicePort | final/logsim/parse.py:118-132 | yields a port exactly for a NAME in the device's inputs or outputs; another NAME gives PORT_ABSENT, a non-NAME NAME_EXPECTED |
| ParseSpec.ParseNode | final/logsim/parse.py:90-100 | a device and an optional `.port`; makes no call and at most one report; on success the device exists |
| ParseSpec.ParseConnection | final/logsim/parse.py:79-88 | node, arrow, node, each only after the previous one parsed; makes no call; on success both devices are present |
| ParseSpec.Act | final/logsim/parse.py:223-228 | a collaborator call and its result check keep the invariant and append the call, followed by a report exactly when a checked result fails |
| ParseSpec.Item | final/logsim/parse.py:193-474 | one item of any statement keeps the invariant, decreases the measure, and every failing checked call is reported |
| ParseSpec.ConnectItem | final/logsim/parse.py:193-204 | a CONNECT item: `make_connection` only after the connection parsed; a failure is reported |
| ParseSpec.MonitorItem | final/logsim/parse.py:382-402 | a MONITOR item: `make_monitor` only after the node parsed; a failure is reported |
| ParseSpec.DeviceItem | final/logsim/parse.py:452-474 | a device item: `make_device` only after its number (none for XOR and DTYPE) and name parsed |
| ParseSpec.Items | final/logsim/parse.py:205-212 | the comma loop runs only while no error is raised, stops off a comma or with an error, and does nothing once `error_bool` is set |
| ParseSpec.Hold | final/logsim/parse.py:196-197 | every handler appends its reserved word to `temp_queue` and reads on, reporting nothing |
| ParseSpec.Handle | final/logsim/parse.py:193-216 | a handler decreases the measure and keeps the event discipline; corrected, a statement that starts with both queues empty ends with both empty |
| ParseSpec.ParseStatement | final/logsim/parse.py:66-72 | one pass resets `error_bool`, runs the handler, or reports exactly KEYWORD_EXPECTED when the symbol starts no statement |
| ParseSpec.ParseStatements | final/logsim/parse.py:65-72 | the statement loop terminates, keeps the invariant and ends at EOF |
| ParseSpec.ParseNetwork | final/logsim/parse.py:59-77 | `parse_network` reads all input, ends at EOF with an empty priority queue, and answers True exactly when `error_count` is 0 |
| Parser.Parser.constructor | final/logsim/parse.py:45-57 | a new parser has no error counted, `error_bool` false and no device known |
| Parser.Parser.ReadSymbol | final/logsim/parse.py:65 | the parser's current symbol becomes what the token source hands out |
| Parser.Parser.Error | final/logsim/parse.py:476-494 | the method leaves exactly the state `ParseSpec.Error` gives |
| Parser.Parser.SkipToStop | final/logsim/parse.py:484-487 | the skip loop leaves exactly the state `ParseSpec.Skip` gives |
| Parser.Parser.Resume | final/logsim/parse.py:488-494 | the replay and the last read leave exactly the state `ParseSpec.Resume` gives |
| Parser.Parser.Semicolon | final/logsim/parse.py:142-149 | agrees with `ParseSpec.ParseSemicolon` |
| Parser.Parser.Arrow | final/logsim/parse.py:134-140 | agrees with `ParseSpec.ParseArrow` |
| Parser.Parser.Number | final/logsim/parse.py:151-158 | agrees with `ParseSpec.ParseNumber`, result included |
| Parser.Parser.NumberString | final/logsim/parse.py:160-167 | agrees with `ParseSpec.ParseNumberString`, result included |
| Parser.Parser.UnnamedDevice | final/logsim/parse.py:169-180 | agrees with `ParseSpec.ParseUnnamedDevice`, result included |
| Parser.Parser.NumberUnnamed | final/logsim/parse.py:182-191 | agrees with `ParseSpec.ParseNumberUnnamed`, both results included |
| Parser.Parser.Device | final/logsim/parse.py:102-116 | agrees with `ParseSpec.ParseDevice`, result included |
| Parser.Parser.DevicePort | final/logsim/parse.py:118-132 | agrees with `ParseSpec.ParseDevicePort`, result included |
| Parser.Parser.Node | final/logsim/parse.py:90-100 | agrees with `ParseSpec.ParseNode`, both results included |
| Parser.Parser.Connection | final/logsim/parse.py:79-88 | agrees with `ParseSpec.ParseConnection`, both nodes included |
| Parser.Parser.Call | final/logsim/parse.py:223-228 | agrees with `ParseSpec.Act` |
| Parser.Parser.Item | final/logsim/parse.py:193-474 | agrees with `ParseSpec.Item` |
| Parser.Parser.Handle | final/logsim/parse.py:193-216 | the handler with its comma loop agrees with `ParseSpec.Handle` |
| Parser.Parser.MoreItems | final/logsim/parse.py:205-212 | the comma loop of a handler terminates and leaves exactly the state `ParseSpec.Items` gives |
| Parser.Parser.Statement | final/logsim/parse.py:66-72 | agrees with `ParseSpec.ParseStatement` |
| Parser.Parser.ParseNetwork | final/logsim/parse.py:59-77 | the loop of `parse_network` terminates, and its answer and final state are those of `ParseSpec.ParseNetwork` |
| ParseProperties.AppendsCounts | final/logsim/parse.py:476-480 | in one step the error count rises by exactly the number of errors the step reported |
| ParseProperties.CountReportsZero | final/logsim/parse.py:74-77 | the count of reports is zero exactly when no report occurs |
| ParseProperties.StatementsCount | final/logsim/parse.py:65-72 | over the whole statement loop, events are only appended and the error count rises by exactly the number of errors reported |
| ParseProperties.ParseNetworkCounts | final/logsim/parse.py:74-77 | `parse_network`'s `error_count` equals the number of `error()` calls, and it answers True exactly when no error was reported |
| ParseProperties.DropNonStops | final/logsim/parse.py:484-487 | reference for the skip loop: the suffix of a stream from its first `;`, `,` or EOF, everything dropped being non-stopping |
| ParseProperties.SkipDropsNonStops | final/logsim/parse.py:484-487 | the skip loop leaves the parser at exactly the suffix `DropNonStops` gives |
| ParseProperties.ResumeStream | final/logsim/parse.py:488-494 | on `;` the parser continues with what follows it; on `,` with the held symbols replayed and then what follows; as written, `temp_queue` survives any stop other than a comma |
| ParseProperties.ErrorResumes | final/logsim/parse.py:476-494 | where `error()` leaves the parser, for each stop it can reach, including EOF when no stop is left |
| ParseProperties.ErrorReplaysKeyword | final/logsim/parse.py:488-491 | under the corrected recovery, an error recovered at a comma replays exactly the statement's reserved word, then what follows the comma, and holds nothing |
| ParseProperties.BoundariesClean | final/logsim/parse.py:65-72 | corrected, every pass of the statement loop starts with both queues empty |
| ParseProperties.ParseNetworkClean | final/logsim/parse.py:59-77 | corrected, `parse_network` starts every statement with both queues empty |
| ParseProperties.ActOutcome | final/logsim/parse.py:223-228 | a call is recorded with its result, a created device becomes known, and exactly a failing checked result adds one error |
| ParseProperties.EarlyClockUnchecked | logsim/parse.py:405-422 | in the earlier release a CLOCK's `make_device` never adds an error and never sets `error_bool` |
| ParseProperties.DeviceItemQualifier | final/logsim/parse.py:452-474 | a numbered device item calls `make_device` once its number and name parsed, with a bit string exactly when `AsDigits` selects it (as written only the first SIGGEN item) and a quantity otherwise |
| ParseSpec.AsDigits | final/logsim/parse.py:457-466 | (definition) a SIGGEN item reads its number as a digit string: the first item always (`number_unnamed(True)`), later items only in the corrected reading; no other kind ever does |
| ParseProperties.ConnectItemCalls | logsim/parse.py:189-211 | a CONNECT item calls a collaborator exactly when node, arrow and node all parsed, and then calls `make_connection` with the nodes in the order written |
| ParseProperties.MonitorItemCalls | logsim/parse.py:383-403 | a MONITOR item calls `make_monitor` exactly once after its node parsed, and any non-NO_ERROR result adds exactly one error |
| ParseProperties.NodeOutcomes | final/logsim/parse.py:90-132 | `node()` gives NAME_EXPECTED on a non-NAME, DEVICE_ABSENT on an unknown NAME, PORT_ABSENT without `.port` on a device lacking the unnamed output or with a port the device lacks, and the device and port otherwise |
| Scenarios.StaleKeywordReplayed | final/logsim/parse.py:476-494 | on `AND ; OR x , 2 G2 ;` as written three NUMBER_EXPECTED errors are reported and no device is made; corrected, two errors and the OR gate G2 is made |
| Scenarios.LaterSigGenItemAsNumber | final/logsim/parse.py:452-474 | on `SIGGEN 0110 S1, 0110 S2;` as written S1 gets the bit string `0110` and S2 the number 110; corrected, both get the bit string |
| ScanSpec.IsSpace | logsim/scanner.py:118 | (definition) `isspace` on ASCII: the space, tab, line feed, vertical tab, form feed, carriage return and the four separators 0x1C-0x1F |
| ScanSpec.IsAlpha | logsim/scanner.py:85 | (definition) `isalpha` on ASCII: the 26 lower-case and 26 upper-case letters |
| ScanSpec.IsDigit | logsim/scanner.py:93 | (definition) `isdigit` on ASCII: `0` to `9` |
| ScanSpec.IsAlnum | logsim/scanner.py:127 | (definition) `isalnum`: a letter or a digit |
| ScanSpec.DigitsValue | logsim/scanner.py:143 | (definition) `int(num_string)` of a run of decimal digits, most significant first; `SerialiserProperties.NatStringReadsBack` shows it inverts `str` |
| ScanSpec.PunctuationType | logsim/scanner.py:98-114 | `;`, `>` and `.` give SEMICOLON, ARROW and DOT, `,` the final release's COMMA, and exactly the other characters give a symbol without type |
| ScanSpec.Initial | logsim/scanner.py:52-63 | (definition) the scanner after its constructor, as intended: the reserved words interned after what the table already holds, and the first character of the file read |
| ScanSpec.InitialAsWritten | logsim/scanner.py:52-63 | (definition) the constructor as written: the reserved words interned, but `current_character` left as the empty string, which reads as end of file (`ScanProperties.InitialAsWrittenIsEof`) |
| ScanSpec.Advance | logsim/scanner.py:145-147 | reading one character strictly decreases what is left to read |
| ScanSpec.SkipSpaces | logsim/scanner.py:116-119 | after `skip_spaces` the current character is not white space (end of file counts as non-space), and nothing is unread |
| ScanSpec.NameRun | logsim/scanner.py:127-131 | every character collected is a letter or digit and the loop stops on one that is not |
| ScanSpec.DigitRun | logsim/scanner.py:138-143 | every character collected is a digit and the loop stops on a non-digit |
| ScanSpec.NextSymbol | logsim/scanner.py:79-114 | `get_symbol` only extends the name table; it answers EOF exactly when only white space is left, and then consumes nothing; any other symbol consumes input |
| ScanSpec.Tokenize | logsim/test_scanner.py:43-45 | reading symbols until EOF gives a stream without EOF, ending in a state that answers EOF |
| NameTable.Intern | logsim/test_scanner.py:67-70 | `lookup` of a string gives the id of its position; a new string is appended with the next id, a known one keeps the table |
| NameTable.InternAll | logsim/scanner.py:59-60 | `lookup` of a list gives one id per string, the id of each string names that string in the new table, and the table is only extended |
| NameTable.InternOne | logsim/scanner.py:91 | `lookup([name])` is the interning of `name` |
| NameTable.InternStable | logsim/test_scanner.py:74-97 | a name interned again gets the id it got before, however the table grew in between |
| NameTable.InternInjective | logsim/test_scanner.py:74-97 | different names get different ids |
| NameTable.InternAllFresh | logsim/test_scanner.py:67-70 | new distinct strings get consecutive ids in order |
| NameTable.Names.Lookup | logsim/scanner.py:59-60 | the name table object's `lookup` loop agrees with `InternAll`: each returned id names its string in the updated name list |
| ScanProperties.SkipSpacesAt | logsim/scanner.py:116-119 | `skip_spaces` stops on the first non-space character at or after the cursor |
| ScanProperties.NameRunAt | logsim/scanner.py:121-131 | `get_name` returns the maximal letter-or-digit run at the cursor and leaves the cursor on the character after it |
| ScanProperties.DigitRunAt | logsim/scanner.py:133-143 | `get_number` reads the maximal digit run and leaves the cursor on the character after it |
| ScanProperties.NextSymbolAtEof | logsim/scanner.py:110-111 | with only white space left, `get_symbol` answers EOF |
| ScanProperties.SeparatorsAreSpace | logsim/scanner.py:116-119 | the separators `\x1c` to `\x1f`, which `isspace` accepts, are skipped like blanks: a file holding only them and a space scans as EOF |
| ScanProperties.NextSymbolAtName | logsim/scanner.py:85-91 | a letter starts the maximal alphanumeric run; it is KEYWORD exactly when in the reserved words, NAME otherwise, with the id the name table gives |
| ScanProperties.NextSymbolAtNumber | logsim/scanner.py:93-96 | a digit starts the maximal digit run, whose value is the symbol's; the character right after the run is dropped |
| ScanProperties.NextSymbolAtOther | logsim/scanner.py:98-114 | `;`, `>`, `.` and `,` give their types and any other character gives no type, each consuming exactly that one character |
| ScanProperties.EofRepeats | logsim/test_scanner.py:54 | once EOF is answered, every further call answers EOF again with the same state |
| ScanProperties.SameNameSameId | logsim/test_scanner.py:74-97 | a name scanned twice gets the same id both times, whatever was interned between |
| ScanProperties.KeywordsDistinct | logsim/test_scanner.py:50-52 | the ten reserved words are distinct |
| ScanProperties.KeywordIds | logsim/test_scanner.py:67-70 | on a fresh name table the reserved words get ids 0 to 9 in order, ahead of the file's names |
| ScanProperties.NextSymbolWf | logsim/scanner.py:79-114 | every non-EOF symbol carries an id exactly when it is a name, reserved word or number, and a reserved word's id is one the parser dispatches on |
| ScanProperties.TokenizeWf | logsim/scanner.py:79-114 | the scanner's whole symbol stream is one the parser model accepts |
| ScanProperties.InitialFresh | logsim/scanner.py:52-63 | the corrected constructor on a fresh table holds exactly the reserved words and has read the first character |
| ScanProperties.KeywordsTableWf | logsim/scanner.py:57-60 | the table of reserved words alone is a valid starting table |
| ScanProperties.KeywordDispatch | final/logsim/parse.py:68-71 | with the dispatch `KeywordsKnown` fixes, the reserved word with id `k` starts the statement of the `k`-th reserved word, in both releases |
| ScanProperties.NoOtherDispatch | final/logsim/parse.py:68-72 | with that dispatch, a symbol whose id is no reserved word's starts no statement |
| ScanProperties.ScannerFeedsParser | logsim/scanner.py:52-63 | a scanner built the corrected way yields, for any text, a symbol stream the parser accepts |
| ScanProperties.InitialAsWrittenIsEof | logsim/scanner.py:61 | as written the first `get_symbol` answers EOF whatever the text, so no symbol is produced |
| ScanProperties.SwitchScansAsKeyword | logsim/scanner.py:85-91 | `SWITCH` is scanned as the reserved word with id 1 |
| ScanProperties.InitialReadsFirstSymbol | logsim/scanner.py:61-63 | on the text `SWITCH` the corrected constructor yields the reserved word, the one as written yields EOF |
| Scanner.Scanner.constructor | logsim/scanner.py:52-63 | interns the reserved words, keeps their ids, and leaves the state `ScanSpec.Initial` gives |
| Scanner.Scanner.Advance | logsim/scanner.py:145-147 | agrees with `ScanSpec.Advance` and leaves the name table alone |
| Scanner.Scanner.SkipSpaces | logsim/scanner.py:116-119 | the loop agrees with `ScanSpec.SkipSpaces` |
| Scanner.Scanner.GetName | logsim/scanner.py:121-131 | the loop returns exactly the run `ScanSpec.NameRun` gives and moves the cursor past it |
| Scanner.Scanner.GetNumber | logsim/scanner.py:133-143 | the loop returns the digit run `ScanSpec.DigitRun` gives, and its value |
| Scanner.Scanner.GetSymbol | logsim/scanner.py:79-114 | returns the symbol `ScanSpec.NextSymbol` gives and moves to its new state, name table included |
| Position.LinePosition | logsim/tests.py:40-42 | (definition) `linenum` is the number of newlines in the consumed prefix plus one, `linepos` the prefix length minus `rfind('\n')` minus one; the rows below state its properties |
| Position.CountNewlines | logsim/tests.py:41 | the count of newlines is at most the length and is zero exactly when there is no newline |
| Position.RFind | logsim/tests.py:42 | `rfind` gives -1 or the index of the last occurrence: it holds the character and nothing after it does |
| Position.LinePositionBounds | logsim/tests.py:41-42 | `linenum >= 1`, `0 <= linepos <= position`, and without a newline the position is line 1, column `position` |
| Position.ColumnAfterLastNewline | logsim/tests.py:42 | `linepos` counts exactly the characters after the last newline |
| Position.LinePositionIsWalk | logsim/tests.py:40-42 | the line and column agree with walking the prefix character by character |
| Position.GetPosition | logsim/tests.py:35-45 | only `symbol.linenum` and `symbol.linepos` are written, with the line and column of the consumed prefix |
| Serialiser.NatString | logsim/gui_interactive_canvas.py:1562 | `str` of a natural number is a non-empty string of digits |
| Serialiser.IntString | logsim/gui_interactive_canvas.py:1562 | `str` of an integer: non-empty, with a leading `-` exactly when the number is negative, and digits after the first character |
| Serialiser.PortString | logsim/gui_interactive_canvas.py:1665-1670 | `get_port_string` starts with the device's name, is exactly that name when there is no port, and otherwise continues with `.` |
| Serialiser.DeviceItem | logsim/gui_interactive_canvas.py:1559-1643 | a device's item ends with its name; it is the name alone exactly for XOR and DTYPE devices (and RC and SIGGEN, which get no section), otherwise a switch's state, a clock's half period or a gate's input count and a space come first |
| Serialiser.LinkItem | logsim/gui_interactive_canvas.py:1661 | (definition) a connection's item: the input end's port string, ` > `, the output end's port string |
| Serialiser.NorSection | logsim/gui_interactive_canvas.py:1612-1622 | corrected, the NOR section is the section of the NOR gates like every other kind's; with NOR gates and no AND gates it is empty exactly as written |
| Serialiser.FileString | logsim/gui_interactive_canvas.py:1551-1663 | (definition) the whole file: the SWITCH, CLOCK, AND, NAND, OR, NOR, XOR and DTYPE sections in that order, then MONITOR and CONNECT, each left out when it has no items; `Serialiser.CreateFileString` is proved to write exactly this |
| Serialiser.JoinSnoc | logsim/gui_interactive_canvas.py:1556-1558 | writing one more item adds `", "` before it unless it is the first |
| Serialiser.WriteDevices | logsim/gui_interactive_canvas.py:1553-1563 | the loop over one kind's devices writes the keyword, the items with their separators, and `";\n"` |
| Serialiser.MonitorItemsSnoc | logsim/gui_interactive_canvas.py:1646-1654 | the monitor items grow by the next monitor's port string |
| Serialiser.WriteMonitors | logsim/gui_interactive_canvas.py:1646-1654 | the MONITOR loop with its hand-kept counter writes the section body of the monitors' port strings |
| Serialiser.WriteConnections | logsim/gui_interactive_canvas.py:1656-1662 | the CONNECT loop writes `input > output` per connection, in order |
| Serialiser.AddDeviceSection | logsim/gui_interactive_canvas.py:1553-1563 | a device block appends its section exactly when there are devices of its kind |
| Serialiser.AddNorSection | logsim/gui_interactive_canvas.py:1612-1622 | the NOR block appends the NOR section under its guard (the AND gates as written) |
| Serialiser.AddMonitorSection | logsim/gui_interactive_canvas.py:1646-1654 | the MONITOR block appends its section exactly when there are monitors |
| Serialiser.AddConnectSection | logsim/gui_interactive_canvas.py:1656-1662 | the CONNECT block appends its section exactly when there are connections |
| Serialiser.CreateFileString | logsim/gui_interactive_canvas.py:1551-1663 | `create_file_string` writes exactly the ten sections of `FileString` in the order SWITCH, CLOCK, AND, NAND, OR, NOR, XOR, DTYPE, MONITOR, CONNECT |
| SerialiserProperties.NatStringReadsBack | logsim/gui_interactive_canvas.py:1559-1573 | a number the editor writes is read back by the scanner as the same number |
| SerialiserProperties.JoinIsSeparated | logsim/gui_interactive_canvas.py:1556-1558 | a section's items are written in order, each except the first after `", "` |
| SerialiserProperties.DeviceItemsInOrder | logsim/gui_interactive_canvas.py:1559-1644 | the i-th device item is that device's item: count or state then name, or the bare name for XOR and DTYPE |
| SerialiserProperties.MonitorItemsInOrder | logsim/gui_interactive_canvas.py:1646-1654 | the i-th MONITOR item is the i-th monitor's port string |
| SerialiserProperties.LinkItemsInOrder | logsim/gui_interactive_canvas.py:1656-1662 | the i-th CONNECT item is the i-th connection, input end first |
| SerialiserProperties.FindDevicesAppend | logsim/gui_interactive_canvas.py:1553 | the devices of one kind in two lists are those of each, in order |
| SerialiserProperties.FindDevicesInsert | logsim/gui_interactive_canvas.py:1553 | adding a device of another kind leaves a kind's list unchanged |
| SerialiserProperties.FileStringByKinds | logsim/gui_interactive_canvas.py:1551-1663 | the file depends on the devices only through the lists of the eight written kinds |
| SerialiserProperties.RcAndSigGenNotWritten | logsim/gui_interactive_canvas.py:1551-1663 | adding an RC or SIGGEN device anywhere leaves the file unchanged |
| SerialiserProperties.FindDevicesOneKind | logsim/gui_interactive_canvas.py:1553 | when all devices have one kind, that kind's list is all of them and the others are empty |
| SerialiserProperties.NorsOnlyLostAsWritten | logsim/gui_interactive_canvas.py:1612-1622 | as written a circuit of NOR gates alone is written as the empty file |
| SerialiserProperties.NorsOnlyWritten | logsim/gui_interactive_canvas.py:1612-1622 | corrected, that circuit is written as its NOR section |
| SerialiserProperties.AndsWithoutNors | logsim/gui_interactive_canvas.py:1612-1622 | as written AND gates without NOR gates produce `NOR ;\n`; corrected, nothing |
| SerialiserProperties.NorSectionCorrected | logsim/gui_interactive_canvas.py:1612-1622 | corrected, the NOR section is guarded like every other; the two versions agree whenever AND and NOR gates are both present or both absent |
| SerialiserProperties.PortStringSplits | logsim/gui_interactive_canvas.py:1665-1670 | for a device name without a dot, `get_port_string`'s text splits back into the device name and, exactly when there is a port, the port name |
| SerialiserProperties.SectionKeywordsReserved | logsim/gui_interactive_canvas.py:1551-1663 | every section keyword is a reserved word of the scanner, and starts the statement for the same kind |

## Left out

- File I/O is not modelled: `open_file`, `input_file.read(1)`, and the `tell`, `seek` and `read` of `get_position`. The file's contents are a parameter, and the number of characters read is a field.
- `display_error`, `Format`, the ANSI highlighting and the printing in `error()` are presentation. An error is modelled as a `Reported(code)` event instead.
- The `eval` dispatch of the final parser is modelled as a lookup of the reserved word's statement in `Env.keywords`.
- The Names, Devices, Network and Monitors classes are not part of this model. They are reduced to what the parser sees: port sets, and result codes from an oracle that may depend on the calls made so far. No gate or clock behaviour is modelled.
- The collaborators start with no device. A device becomes known only when this parser's `make_device` succeeds.
- The error codes are a datatype. The numbers `unique_error_codes` hands out are not modelled.
- The handlers' `return True` is not used by any caller and is not modelled.
- The earlier release's DTYPE handler reads `self.devices.DTYPE` in its later items, which would raise. This is modelled as a DTYPE device, as its first item does.
- ParseSpec.Act: the lemma `ParseProperties.ActOutcome` states the trace it appends, not its own contract, to keep the step function cheap to verify.
- The character classes are ASCII versions of Python's `isspace` (space, `\t` to `\r`, and the separators `\x1c` to `\x1f`), `isalpha`, `isdigit` and `isalnum`. Unicode white space, letters and digits are not modelled.
- Scanner.Scanner.GetName: the ValueError raised on a non-letter is a precondition here. `get_symbol` only calls it on a letter.
- Scanner.Scanner.GetNumber: the ValueError raised on a non-digit is a precondition here, for the same reason.
- `str(int)` is modelled by `Serialiser.IntString`. Only non-negative numbers are shown to read back.
- The canvas is a snapshot of what `create_file_string` reads.
  - `find_devices` returns each kind's devices in creation order. The Devices source is not part of this model, so any order it gives is abstracted to that one.
  - The wx canvas, OpenGL, dialogs and the rest of gui_interactive_canvas.py are out of scope.
- Serialiser.FindDevices: states only that it returns no more devices than there are. Membership follows from the lemmas `FindDevicesAppend` and `FindDevicesOneKind`.

## Findings

| source | as written | input that shows it | evidently intended | confidence | as-written member | corrected member |
|---|---|---|---|---|---|---|
| final/logsim/parse.py:488-491 | `error()` empties `temp_queue` only when it stops at a comma, so after a recovery at `;` the old statement's reserved word stays held; the next recovery at a comma replays both reserved words. The earlier release (logsim/parse.py lines 432-435) does the same | `AND ; OR x , 2 G2 ;` gives three NUMBER_EXPECTED errors and never makes G2 | the held reserved word belongs to the statement being recovered and is discarded once that statement ends | not executed | Scenarios.StaleKeywordReplayed (ParseSpec.Error with `AsWritten`) | ParseProperties.ErrorReplaysKeyword, ParseProperties.BoundariesClean (ParseSpec.Error with `Corrected`) |
| final/logsim/parse.py:466 | the first SIGGEN item reads its number with `number_string()`, later items with `number()` | `SIGGEN 0110 S1, 0110 S2;` gives S2 the integer 110 instead of the bit string `0110` | every SIGGEN item is read as a digit string | not executed | Scenarios.LaterSigGenItemAsNumber (ParseSpec.AsDigits with `AsWritten`) | ParseProperties.DeviceItemQualifier (ParseSpec.AsDigits with `Corrected`) |
| logsim/gui_interactive_canvas.py:1613 | the NOR section is guarded by `and_ids` | a circuit of NOR gates only is written as the empty file; AND gates without NOR gates give `NOR ;` | the guard is `nor_ids`, as for every other section | not executed | SerialiserProperties.NorsOnlyLostAsWritten, SerialiserProperties.AndsWithoutNors | SerialiserProperties.NorsOnlyWritten, SerialiserProperties.NorSectionCorrected |
| logsim/scanner.py:61 | the constructor leaves `current_character` as the empty string and never reads the first character | the text `SWITCH` gives EOF as its first symbol | the constructor reads the first character, as `advance()` does | not executed | ScanProperties.InitialAsWrittenIsEof | ScanProperties.InitialReadsFirstSymbol, ScanProperties.ScannerFeedsParser |
