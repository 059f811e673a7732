/** The parser of the definition language as state transitions: one function per method of `Parser`
    (final/logsim/parse.py, and its earlier form logsim/parse.py, which differs only where `Variant`
    says so). The `Parser` class in module Parser runs these steps imperatively and is proved to agree
    with them; the properties of the recovery protocol are proved about them in module ParseProperties. */
module ParseSpec {
  import opened Wrappers
  import opened Symbols
  import opened Tokens
  import opened Circuit

  /** `Early` is logsim/parse.py (dispatch on the symbol id, CLOCK results ignored, no RC or SIGGEN);
      `Final` is final/logsim/parse.py (dispatch on the reserved word, every result checked). */
  datatype Release = Early | Final

  /** `AsWritten` follows the code line by line; `Corrected` repairs the two defects listed under
      Findings in the README (`temp_queue` left stale by a recovery that stops at `;` or EOF, and the
      later SIGGEN items read as numbers instead of digit strings). */
  datatype Fidelity = AsWritten | Corrected

  datatype Variant = Variant(release: Release, fidelity: Fidelity)

  /** What the parser does that can be observed from outside, in order: an error it reports (what
      `display_error` prints), or a call into a collaborator together with the code that call returned. */
  datatype Event = Reported(code: ErrorCode) | Called(call: Call, result: ErrorCode)

  /** The parser's state: the current symbol, `error_bool`, `error_count`, what it has done so far, the
      token source and the devices that `get_device` knows. */
  datatype PState = PState(
    symbol: Symbol,
    errorBool: bool,
    errorCount: nat,
    events: seq<Event>,
    src: Source,
    devices: map<int, Ports>)

  /** The calls the collaborators have received, in order. */
  function CallsOf(events: seq<Event>): (calls: seq<Call>)
    ensures |calls| <= |events|
  {
    if events == [] then []
    else CallsOf(events[..|events| - 1]) + (match events[|events| - 1]
                                            case Called(c, _) => [c]
                                            case Reported(_) => [])
  }

  /** The number of errors reported in `events`. */
  function CountReports(events: seq<Event>): (n: nat)
    ensures n <= |events|
  {
    if events == [] then 0
    else CountReports(events[..|events| - 1]) + (if events[|events| - 1].Reported? then 1 else 0)
  }

  // ---------------------------------------------------------------------------------------------
  // Dispatch, well-formedness and the progress measure

  /** Whether the earlier parser has a handler for a statement: it has none for RC and SIGGEN. */
  predicate EarlyHandles(stmt: Statement) {
    stmt != DeviceStatement(Rc) && stmt != DeviceStatement(SigGen)
  }

  /** The statement a symbol starts at top level. The final parser looks at reserved words only; the
      earlier one compares the symbol's id with the reserved words' ids, whatever the symbol's type. */
  function StatementOf(v: Variant, env: Env, s: Symbol): (r: Option<Statement>)
    ensures r.Some? ==> s.id.Some? && s.id.value in env.keywords && r.value == env.keywords[s.id.value]
    ensures v.release == Final ==> (r.Some? <==> IsType(s, Keyword) && s.id.Some? && s.id.value in env.keywords)
    ensures v.release == Early ==> (r.Some? <==> s.id.Some? && s.id.value in env.keywords
                                                 && EarlyHandles(env.keywords[s.id.value]))
  {
    match v.release
    case Final =>
      if IsType(s, Keyword) && s.id.Some? && s.id.value in env.keywords then Some(env.keywords[s.id.value])
      else None
    case Early =>
      if s.id.Some? && s.id.value in env.keywords && EarlyHandles(env.keywords[s.id.value])
      then Some(env.keywords[s.id.value]) else None
  }

  predicate Dispatchable(v: Variant, env: Env, s: Symbol) {
    StatementOf(v, env, s).Some?
  }

  /** What the scanner guarantees of every symbol: exactly names, reserved words and numbers carry an id,
      and every reserved word is one the parser has a handler for. */
  predicate SymbolWf(env: Env, s: Symbol) {
    && (s.id.Some? <==> (IsType(s, Keyword) || IsType(s, Name) || IsType(s, Number)))
    && (IsType(s, Keyword) ==> s.id.value in env.keywords)
  }

  /** What the scanner guarantees of a whole file's symbol stream: every symbol is well formed, and EOF
      is not part of it (it is what `get_symbol` answers once the stream is exhausted). */
  predicate InputWf(env: Env, input: seq<Symbol>) {
    forall i :: 0 <= i < |input| ==> SymbolWf(env, input[i]) && !IsType(input[i], Eof)
  }

  predicate IsStop(s: Symbol) {
    IsType(s, Semicolon) || IsType(s, Comma) || IsType(s, Eof)
  }

  /** The invariant of every state, except for the held priority queue. */
  ghost predicate Core(v: Variant, env: Env, st: PState) {
    && st.src.pos <= |st.src.input|
    && (IsType(st.symbol, Eof) ==> st.src.priorityQueue == [] && st.src.pos == |st.src.input|)
    && InputWf(env, st.src.input)
    && SymbolWf(env, st.symbol)
    && (forall s :: s in st.src.priorityQueue ==> Dispatchable(v, env, s) && SymbolWf(env, s))
    && (forall s :: s in st.src.tempQueue ==> Dispatchable(v, env, s) && SymbolWf(env, s))
  }

  /** The invariant of every state between two steps: the queues only ever hold symbols that start a
      statement, and the priority queue is non-empty only while the current symbol starts a statement
      (it was itself taken from the queue). */
  ghost predicate Wf(v: Variant, env: Env, st: PState) {
    Core(v, env, st) && (st.src.priorityQueue != [] ==> Dispatchable(v, env, st.symbol))
  }

  /** First component of the progress measure: unread input counts twice, the current symbol once
      unless it is EOF, and once more if it is a comma. */
  function MeasureA(st: PState): nat {
    2 * (if st.src.pos <= |st.src.input| then |st.src.input| - st.src.pos else 0)
    + (if IsType(st.symbol, Eof) then 0 else 1)
    + (if IsType(st.symbol, Comma) then 1 else 0)
  }

  /** Second component: the held symbols, plus one if the current symbol starts a statement. */
  function MeasureB(v: Variant, env: Env, st: PState): nat {
    |st.src.priorityQueue| + |st.src.tempQueue| + (if Dispatchable(v, env, st.symbol) then 1 else 0)
  }

  predicate Le(v: Variant, env: Env, a: PState, b: PState) {
    MeasureA(a) < MeasureA(b) || (MeasureA(a) == MeasureA(b) && MeasureB(v, env, a) <= MeasureB(v, env, b))
  }

  predicate Lt(v: Variant, env: Env, a: PState, b: PState) {
    MeasureA(a) < MeasureA(b) || (MeasureA(a) == MeasureA(b) && MeasureB(v, env, a) < MeasureB(v, env, b))
  }

  /** A step from `st` to `r` keeps the invariant and the input and never increases the measure. */
  ghost predicate Keeps(v: Variant, env: Env, r: PState, st: PState) {
    Wf(v, env, r) && r.src.input == st.src.input && Le(v, env, r, st)
  }

  /** ... and decreases the measure whenever it started on a symbol other than EOF. */
  ghost predicate Advances(v: Variant, env: Env, r: PState, st: PState) {
    Keeps(v, env, r, st) && (!IsType(st.symbol, Eof) ==> Lt(v, env, r, st))
  }

  lemma LeTrans(v: Variant, env: Env, a: PState, b: PState, c: PState)
    requires Le(v, env, a, b) && Le(v, env, b, c)
    ensures Le(v, env, a, c) && (Lt(v, env, a, b) || Lt(v, env, b, c) ==> Lt(v, env, a, c))
  {
  }

  // ---------------------------------------------------------------------------------------------
  // What one step does to the observable events

  /** An error is only ever the last thing a pass does. */
  predicate ReportLast(e: seq<Event>) {
    forall i :: 0 <= i < |e| && e[i].Reported? ==> i == |e| - 1
  }

  /** Whether a result code is acted on: the earlier parser discards what `make_device` answers for a
      CLOCK. */
  predicate Checked(v: Variant, c: Call) {
    !(v.release == Early && c.MakeDevice? && c.kind == Clock)
  }

  /** Every failing call whose result is checked is immediately followed by the report of its code. */
  predicate FailuresReported(v: Variant, e: seq<Event>) {
    forall i :: 0 <= i < |e| && e[i].Called? && e[i].result != NoError && Checked(v, e[i].call) ==>
      i + 1 < |e| && e[i + 1] == Reported(e[i].result)
  }

  predicate EndsInReport(e: seq<Event>) {
    e != [] && e[|e| - 1].Reported?
  }

  /** The events from `st` to `r` extend the old ones by a piece `e` in which at most the last event is an
      error, every checked failing call is reported, `error_bool` is set exactly when it was already set or
      `e` ends in an error, and `error_count` rises by one exactly when `e` ends in an error. */
  predicate Appends(v: Variant, st: PState, r: PState) {
    && |st.events| <= |r.events|
    && r.events[..|st.events|] == st.events
    && var e := r.events[|st.events|..];
       && ReportLast(e)
       && FailuresReported(v, e)
       && r.errorBool == (st.errorBool || EndsInReport(e))
       && r.errorCount == st.errorCount + (if EndsInReport(e) then 1 else 0)
  }

  /** A step from `st` to `r` that reports nothing and calls nothing. */
  predicate Silent(st: PState, r: PState) {
    r.events == st.events && r.errorBool == st.errorBool && r.errorCount == st.errorCount
    && r.devices == st.devices
  }

  /** The queue discipline of the corrected recovery: the priority queue stays empty and at most the
      statement's reserved word is held; an error raised in the step leaves nothing held. */
  predicate Tidy(st: PState) {
    st.src.priorityQueue == [] && |st.src.tempQueue| <= 1
  }

  predicate KeepsTidy(v: Variant, st: PState, r: PState) {
    v.fidelity == Corrected && Tidy(st) ==> Tidy(r) && (r.errorBool && !st.errorBool ==> r.src.tempQueue == [])
  }

  /** A step that makes no call into a collaborator and reports at most one error. */
  predicate SyntaxOnly(st: PState, r: PState) {
    && |st.events| <= |r.events| <= |st.events| + 1
    && r.events[..|st.events|] == st.events
    && (|r.events| == |st.events| + 1 ==> r.events[|st.events|].Reported?)
  }

  /** Appending after a pass that set `error_bool` adds nothing. */
  lemma AppendsTrans(v: Variant, st: PState, m: PState, r: PState)
    requires Appends(v, st, m) && Appends(v, m, r)
    requires m.errorBool ==> r.events == m.events
    ensures Appends(v, st, r)
  {
    var e1 := m.events[|st.events|..];
    var e2 := r.events[|m.events|..];
    assert r.events[|st.events|..] == e1 + e2;
    assert r.events[..|st.events|] == st.events by {
      assert r.events[..|m.events|] == m.events;
    }
    if e2 != [] {
      assert !m.errorBool;
      assert !EndsInReport(e1);
      forall i | 0 <= i < |e1| ensures !e1[i].Reported? {
      }
    }
  }

  /** The invariant and the measure depend on the symbols only, not on what has been done with them. */
  lemma SameSymbols(v: Variant, env: Env, st: PState, r: PState)
    requires Wf(v, env, st) && r.symbol == st.symbol && r.src == st.src
    ensures Keeps(v, env, r, st) && Wf(v, env, r) && MeasureA(r) == MeasureA(st) && MeasureB(v, env, r) == MeasureB(v, env, st)
  {
  }

  /** Two steps in a row, where the second does nothing once the first has raised an error. */
  lemma Chain(v: Variant, env: Env, st: PState, m: PState, r: PState)
    requires Keeps(v, env, m, st) && Keeps(v, env, r, m)
    requires Appends(v, st, m) && Appends(v, m, r) && KeepsTidy(v, st, m) && KeepsTidy(v, m, r)
    requires m.errorBool ==> r == m
    ensures Keeps(v, env, r, st) && Appends(v, st, r) && KeepsTidy(v, st, r)
    ensures Lt(v, env, m, st) || Lt(v, env, r, m) ==> Lt(v, env, r, st)
  {
    AppendsTrans(v, st, m, r);
  }

  /** A call followed by nothing, or by the report of its failing result. */
  lemma AppendsCall(v: Variant, st: PState, r: PState, call: Call, res: ErrorCode)
    requires r.events == st.events + [Called(call, res)] || r.events == st.events + [Called(call, res), Reported(res)]
    requires r.events == st.events + [Called(call, res)] ==> res == NoError || !Checked(v, call)
    requires r.errorBool == (st.errorBool || r.events == st.events + [Called(call, res), Reported(res)])
    requires r.errorCount == st.errorCount + (if r.events == st.events + [Called(call, res)] then 0 else 1)
    ensures Appends(v, st, r)
  {
    var e := r.events[|st.events|..];
    if r.events == st.events + [Called(call, res)] {
      assert e == [Called(call, res)];
    } else {
      assert e == [Called(call, res), Reported(res)];
    }
  }

  // ---------------------------------------------------------------------------------------------
  // The steps

  /** `self.symbol = self.scanner.get_symbol()` */
  function GetSym(st: PState): (r: PState)
    ensures r.symbol == Next(st.src).0 && r.src == Next(st.src).1
    ensures Silent(st, r)
  {
    st.(symbol := Next(st.src).0, src := Next(st.src).1)
  }

  /** Reading a symbol keeps the invariant, and decreases the measure when the current symbol is not EOF.
      It also re-establishes the invariant in the middle of a recovery, where the current symbol is the
      comma at which the priority queue has just been refilled. */
  lemma GetSymAdvances(v: Variant, env: Env, st: PState)
    requires Core(v, env, st)
    requires st.src.priorityQueue != [] ==> Dispatchable(v, env, st.symbol) || IsType(st.symbol, Comma)
    ensures Wf(v, env, GetSym(st)) && GetSym(st).src.input == st.src.input
    ensures !IsType(st.symbol, Eof) ==> Lt(v, env, GetSym(st), st)
  {
    var r := GetSym(st);
    if st.src.priorityQueue != [] {
      assert st.src.priorityQueue[0] in st.src.priorityQueue;
      forall s | s in r.src.priorityQueue ensures Dispatchable(v, env, s) && SymbolWf(env, s) {
        assert s in st.src.priorityQueue;
      }
      if r.src.priorityQueue != [] {
        assert r.src.priorityQueue[0] in r.src.priorityQueue;
      }
    } else if st.src.pos < |st.src.input| {
      assert r.symbol == st.src.input[st.src.pos];
    }
  }

  /** The skip loop of `error()`: read symbols until `;`, `,` or EOF. */
  function Skip(v: Variant, env: Env, st: PState): (r: PState)
    requires Wf(v, env, st)
    ensures Keeps(v, env, r, st) && Silent(st, r) && (!IsStop(st.symbol) ==> Lt(v, env, r, st))
    ensures IsStop(r.symbol) && r.src.tempQueue == st.src.tempQueue && r.src.priorityQueue == []
    ensures IsStop(st.symbol) ==> r == st
    decreases MeasureA(st), MeasureB(v, env, st)
  {
    if IsStop(st.symbol) then st
    else
      GetSymAdvances(v, env, st);
      var r := Skip(v, env, GetSym(st));
      LeTrans(v, env, r, GetSym(st), st);
      r
  }

  /** `error(code)`: count and report the error, set `error_bool`, skip to `;`, `,` or EOF, move the held
      symbols to the priority queue and empty `temp_queue` if a comma was reached, and read one more symbol
      unless at EOF. The corrected recovery empties `temp_queue` whatever was reached. */
  function Error(v: Variant, env: Env, st: PState, code: ErrorCode): (r: PState)
    requires Wf(v, env, st)
    ensures Advances(v, env, r, st) && Appends(v, st, r) && KeepsTidy(v, st, r)
    ensures r.events == st.events + [Reported(code)] && r.devices == st.devices
    ensures r.errorBool && r.errorCount == st.errorCount + 1
    ensures v.fidelity == Corrected ==> r.src.tempQueue == []
  {
    SameSymbols(v, env, st, Mark(st, code));
    var r := Resume(v, env, Skip(v, env, Mark(st, code)));
    assert r.events[|st.events|..] == [Reported(code)];
    r
  }

  /** The first lines of `error()`: set `error_bool`, count the error and report it. */
  function Mark(st: PState, code: ErrorCode): (r: PState) {
    st.(errorBool := true, errorCount := st.errorCount + 1, events := st.events + [Reported(code)])
  }

  /** What `error()` does once its skip loop has stopped: replay the held symbols if it stopped at a comma,
      and read past the stopping symbol unless it is EOF. */
  function Resume(v: Variant, env: Env, st: PState): (r: PState)
    requires Wf(v, env, st) && IsStop(st.symbol) && st.src.priorityQueue == []
    ensures Advances(v, env, r, st) && Silent(st, r)
    ensures v.fidelity == Corrected ==> r.src.tempQueue == []
    ensures v.fidelity == Corrected && |st.src.tempQueue| <= 1 ==> r.src.priorityQueue == []
  {
    var st3 := if IsType(st.symbol, Comma)
               then st.(src := st.src.(priorityQueue := st.src.tempQueue, tempQueue := []))
               else if v.fidelity == Corrected then st.(src := st.src.(tempQueue := []))
               else st;
    if IsType(st3.symbol, Eof) then st3
    else
      GetSymAdvances(v, env, st3);
      GetSym(st3)
  }

  /** `semicolon()`: consume the `;` and empty `temp_queue`, or report SEMICOLON_EXPECTED. */
  function ParseSemicolon(v: Variant, env: Env, st: PState): (r: PState)
    requires Wf(v, env, st)
    ensures Advances(v, env, r, st) && Appends(v, st, r) && KeepsTidy(v, st, r) && r.devices == st.devices
    ensures IsType(st.symbol, Semicolon) ==> Silent(st, r) && r.src.tempQueue == []
    ensures !IsType(st.symbol, Semicolon) ==> r == Error(v, env, st, SemicolonExpected)
  {
    if IsType(st.symbol, Semicolon) then
      GetSymAdvances(v, env, st);
      var st1 := GetSym(st);
      st1.(src := st1.src.(tempQueue := []))
    else Error(v, env, st, SemicolonExpected)
  }

  /** `arrow()`: consume the `>` or report ARROW_EXPECTED. */
  function ParseArrow(v: Variant, env: Env, st: PState): (r: PState)
    requires Wf(v, env, st)
    ensures Advances(v, env, r, st) && Appends(v, st, r) && KeepsTidy(v, st, r) && r.devices == st.devices
    ensures IsType(st.symbol, Arrow) ==> r == GetSym(st) && Silent(st, r)
    ensures !IsType(st.symbol, Arrow) ==> r == Error(v, env, st, ArrowExpected)
  {
    if IsType(st.symbol, Arrow) then
      GetSymAdvances(v, env, st);
      GetSym(st)
    else Error(v, env, st, ArrowExpected)
  }

  /** A step that also yields a value, as the Python helpers return one. */
  datatype Step<T> = Step(st: PState, value: T)

  /** The two halves of a MONITOR item or of one side of a CONNECT item. */
  datatype NodeValue = NodeValue(device: Option<int>, port: Option<int>)

  /** The two halves of a device item: the number (or its digits) and the new device's name id. */
  datatype NumberedName = NumberedName(qualifier: Option<Qualifier>, device: Option<int>)

  /** `number()`: the value of a NUMBER, or NUMBER_EXPECTED. */
  function ParseNumber(v: Variant, env: Env, st: PState): (r: Step<Option<int>>)
    requires Wf(v, env, st)
    ensures Advances(v, env, r.st, st) && Appends(v, st, r.st) && KeepsTidy(v, st, r.st) && r.st.devices == st.devices
    ensures r.value.Some? <==> IsType(st.symbol, Number)
    ensures r.value.Some? ==> r.value == st.symbol.id && r.st == GetSym(st)
    ensures r.value.None? ==> r.st == Error(v, env, st, NumberExpected)
  {
    if IsType(st.symbol, Number) then
      GetSymAdvances(v, env, st);
      Step(GetSym(st), st.symbol.id)
    else Step(Error(v, env, st, NumberExpected), None)
  }

  /** `number_string()`: the digits of a NUMBER as written, or NUMBER_EXPECTED. */
  function ParseNumberString(v: Variant, env: Env, st: PState): (r: Step<Option<string>>)
    requires Wf(v, env, st)
    ensures Advances(v, env, r.st, st) && Appends(v, st, r.st) && KeepsTidy(v, st, r.st) && r.st.devices == st.devices
    ensures r.value.Some? <==> IsType(st.symbol, Number)
    ensures r.value.Some? ==> r.value.value == st.symbol.numString && r.st == GetSym(st)
    ensures r.value.None? ==> r.st == Error(v, env, st, NumberExpected)
  {
    if IsType(st.symbol, Number) then
      GetSymAdvances(v, env, st);
      Step(GetSym(st), Some(st.symbol.numString))
    else Step(Error(v, env, st, NumberExpected), None)
  }

  /** `unnamed_device()`: the id of a NAME that is not yet a device. A symbol whose id is that of an
      existing device gives DEVICE_PRESENT, whatever its type; anything else gives NAME_EXPECTED. */
  function ParseUnnamedDevice(v: Variant, env: Env, st: PState): (r: Step<Option<int>>)
    requires Wf(v, env, st)
    ensures Advances(v, env, r.st, st) && Appends(v, st, r.st) && KeepsTidy(v, st, r.st) && r.st.devices == st.devices
    ensures r.value.Some? <==> IsType(st.symbol, Name) && st.symbol.id.value !in st.devices
    ensures r.value.Some? ==> r.value == st.symbol.id && r.st == GetSym(st)
    ensures r.value.None? ==> r.st == Error(v, env, st, if st.symbol.id.Some? && st.symbol.id.value in st.devices
                                                      then DevicePresent else NameExpected)
  {
    if IsType(st.symbol, Name) && st.symbol.id.value !in st.devices then
      GetSymAdvances(v, env, st);
      Step(GetSym(st), st.symbol.id)
    else if st.symbol.id.Some? && st.symbol.id.value in st.devices then
      Step(Error(v, env, st, DevicePresent), None)
    else
      Step(Error(v, env, st, NameExpected), None)
  }

  /** `number_unnamed(string)`: a number (its digits when `asString`) followed by a new device name; the
      name is not looked at when the number is missing. */
  function ParseNumberUnnamed(v: Variant, env: Env, st: PState, asString: bool): (r: Step<NumberedName>)
    requires Wf(v, env, st)
    ensures Advances(v, env, r.st, st) && Appends(v, st, r.st) && KeepsTidy(v, st, r.st) && r.st.devices == st.devices
    ensures SyntaxOnly(st, r.st)
    ensures !r.st.errorBool ==> r.value.qualifier.Some? && r.value.device.Some?
    ensures !IsType(st.symbol, Number) ==> r.st == Error(v, env, st, NumberExpected)
    ensures r.value.qualifier.Some? ==> (if asString then r.value.qualifier.value.BitString?
                                         else r.value.qualifier.value.Quantity?)
  {
    var q :=
      if asString then
        var n := ParseNumberString(v, env, st);
        Step(n.st, if n.value.Some? then Some(BitString(n.value.value)) else None)
      else
        var n := ParseNumber(v, env, st);
        Step(n.st, if n.value.Some? then Some(Quantity(n.value.value)) else None);
    if q.st.errorBool then Step(q.st, NumberedName(q.value, None))
    else
      var u := ParseUnnamedDevice(v, env, q.st);
      Step(u.st, NumberedName(q.value, u.value))
  }

  /** `device()`: the id of a NAME that is an existing device; an unknown NAME gives DEVICE_ABSENT and
      anything else NAME_EXPECTED. */
  function ParseDevice(v: Variant, env: Env, st: PState): (r: Step<Option<int>>)
    requires Wf(v, env, st)
    ensures Advances(v, env, r.st, st) && Appends(v, st, r.st) && KeepsTidy(v, st, r.st) && r.st.devices == st.devices
    ensures r.value.Some? <==> IsType(st.symbol, Name) && st.symbol.id.value in st.devices
    ensures r.value.Some? ==> r.value == st.symbol.id && r.st == GetSym(st)
    ensures r.value.None? ==> r.st == Error(v, env, st, if IsType(st.symbol, Name) then DeviceAbsent else NameExpected)
  {
    if IsType(st.symbol, Name) && st.symbol.id.value in st.devices then
      GetSymAdvances(v, env, st);
      Step(GetSym(st), st.symbol.id)
    else if IsType(st.symbol, Name) then
      Step(Error(v, env, st, DeviceAbsent), None)
    else
      Step(Error(v, env, st, NameExpected), None)
  }

  /** `device_port(device)` for an existing device with ports `ports`: the id of a NAME that is one of its
      inputs or outputs; any other NAME gives PORT_ABSENT and a non-NAME NAME_EXPECTED. (The branch for a
      missing device cannot be reached, since `node()` only calls this after `device()` succeeded.) */
  function ParseDevicePort(v: Variant, env: Env, st: PState, ports: Ports): (r: Step<Option<int>>)
    requires Wf(v, env, st)
    ensures Advances(v, env, r.st, st) && Appends(v, st, r.st) && KeepsTidy(v, st, r.st) && r.st.devices == st.devices
    ensures r.value.Some? <==> IsType(st.symbol, Name) && PortOf(ports, st.symbol.id.value)
    ensures r.value.Some? ==> r.value == st.symbol.id && r.st == GetSym(st)
    ensures r.value.None? ==> r.st == Error(v, env, st, if IsType(st.symbol, Name) then PortAbsent else NameExpected)
  {
    if IsType(st.symbol, Name) then
      if PortOf(ports, st.symbol.id.value) then
        GetSymAdvances(v, env, st);
        Step(GetSym(st), st.symbol.id)
      else Step(Error(v, env, st, PortAbsent), None)
    else Step(Error(v, env, st, NameExpected), None)
  }

  predicate PortOf(ports: Ports, id: int) {
    id in ports.inputs || Some(id) in ports.outputs
  }

  /** `node()`: a device optionally followed by `.port`. Without a port the device must have an unnamed
      output, otherwise PORT_ABSENT. */
  function ParseNode(v: Variant, env: Env, st: PState): (r: Step<NodeValue>)
    requires Wf(v, env, st)
    ensures Advances(v, env, r.st, st) && Appends(v, st, r.st) && KeepsTidy(v, st, r.st) && r.st.devices == st.devices
    ensures SyntaxOnly(st, r.st)
    ensures !r.st.errorBool ==> r.value.device.Some? && r.value.device.value in st.devices
  {
    var d := ParseDevice(v, env, st);
    if !d.st.errorBool && IsType(d.st.symbol, Dot) then
      GetSymAdvances(v, env, d.st);
      var p := ParseDevicePort(v, env, GetSym(d.st), st.devices[d.value.value]);
      Step(p.st, NodeValue(d.value, p.value))
    else if !d.st.errorBool && None !in st.devices[d.value.value].outputs then
      Step(Error(v, env, d.st, PortAbsent), NodeValue(d.value, None))
    else
      Step(d.st, NodeValue(d.value, None))
  }

  /** `connection()`: node, arrow, node; the arrow is only looked for once the first node parsed, and the
      second node only once the arrow did. */
  function ParseConnection(v: Variant, env: Env, st: PState): (r: Step<(NodeValue, NodeValue)>)
    requires Wf(v, env, st)
    ensures Advances(v, env, r.st, st) && Appends(v, st, r.st) && KeepsTidy(v, st, r.st) && r.st.devices == st.devices
    ensures SyntaxOnly(st, r.st)
    ensures !r.st.errorBool ==> r.value.0.device.Some? && r.value.1.device.Some?
  {
    var n1 := ParseNode(v, env, st);
    if n1.st.errorBool then Step(n1.st, (n1.value, NodeValue(None, None)))
    else
      var a := ParseArrow(v, env, n1.st);
      Chain(v, env, st, n1.st, a);
      if a.errorBool then Step(a, (n1.value, NodeValue(None, None)))
      else
        var n2 := ParseNode(v, env, a);
        Chain(v, env, st, a, n2.st);
        Step(n2.st, (n1.value, n2.value))
  }

  /** One call into a collaborator with the code it answers. A device that was created becomes known to
      `get_device`. A failing result is reported as an error unless the earlier parser discards it. */
  function Act(v: Variant, env: Env, st: PState, call: Call): (r: PState)
    requires Wf(v, env, st)
    ensures Keeps(v, env, r, st) && Appends(v, st, r) && KeepsTidy(v, st, r)
  {
    var res := env.respond(CallsOf(st.events), call);
    var st1 := st.(events := st.events + [Called(call, res)],
                   devices := if call.MakeDevice? && res == NoError
                              then st.devices[call.device := env.portsOf(call.device, call.kind, call.qualifier)]
                              else st.devices);
    SameSymbols(v, env, st, st1);
    if Checked(v, call) && res != NoError then
      ActReports(v, env, st, st1, call, res);
      Error(v, env, st1, res)
    else
      AppendsCall(v, st, st1, call, res);
      st1
  }

  /** A call whose error is checked, recorded and then reported: the report is the call's second event. */
  lemma ActReports(v: Variant, env: Env, st: PState, st1: PState, call: Call, res: ErrorCode)
    requires Wf(v, env, st) && Keeps(v, env, st1, st)
    requires st1.events == st.events + [Called(call, res)] && st1.errorBool == st.errorBool
    requires st1.errorCount == st.errorCount && st1.src == st.src
    requires Checked(v, call) && res != NoError
    ensures var r := Error(v, env, st1, res); Keeps(v, env, r, st) && Appends(v, st, r) && KeepsTidy(v, st, r)
  {
    var r := Error(v, env, st1, res);
    assert r.events == st.events + [Called(call, res), Reported(res)];
    AppendsCall(v, st, r, call, res);
  }

  /** Whether an item of this statement reads its number as a digit string: SIGGEN does, but as written
      only for its first item. */
  predicate AsDigits(v: Variant, kind: DeviceKind, first: bool) {
    kind == SigGen && (first || v.fidelity == Corrected)
  }

  /** One item of a statement and the call it makes once it has parsed without error. */
  function Item(v: Variant, env: Env, st: PState, stmt: Statement, first: bool): (r: PState)
    requires Wf(v, env, st)
    ensures Advances(v, env, r, st) && Appends(v, st, r) && KeepsTidy(v, st, r)
  {
    match stmt
    case ConnectStatement => ConnectItem(v, env, st)
    case MonitorStatement => MonitorItem(v, env, st)
    case DeviceStatement(kind) => DeviceItem(v, env, st, kind, first)
  }

  /** A CONNECT item: `make_connection` of the two nodes once both parsed. */
  function ConnectItem(v: Variant, env: Env, st: PState): (r: PState)
    requires Wf(v, env, st)
    ensures Advances(v, env, r, st) && Appends(v, st, r) && KeepsTidy(v, st, r)
  {
    var c := ParseConnection(v, env, st);
    if c.st.errorBool then c.st
    else
      var r := Act(v, env, c.st, MakeConnection(c.value.0.device.value, c.value.0.port,
                                                c.value.1.device.value, c.value.1.port));
      Chain(v, env, st, c.st, r);
      r
  }

  /** A MONITOR item: `make_monitor` of the node once it parsed. */
  function MonitorItem(v: Variant, env: Env, st: PState): (r: PState)
    requires Wf(v, env, st)
    ensures Advances(v, env, r, st) && Appends(v, st, r) && KeepsTidy(v, st, r)
  {
    var n := ParseNode(v, env, st);
    if n.st.errorBool then n.st
    else
      var r := Act(v, env, n.st, MakeMonitor(n.value.device.value, n.value.port));
      Chain(v, env, st, n.st, r);
      r
  }

  /** A device item: `make_device` once the device (and, except for XOR and DTYPE, its number) parsed. */
  function DeviceItem(v: Variant, env: Env, st: PState, kind: DeviceKind, first: bool): (r: PState)
    requires Wf(v, env, st)
    ensures Advances(v, env, r, st) && Appends(v, st, r) && KeepsTidy(v, st, r)
  {
    if kind == Xor || kind == DType then
      var u := ParseUnnamedDevice(v, env, st);
      if u.st.errorBool then u.st
      else
        var r := Act(v, env, u.st, MakeDevice(u.value.value, kind, Unqualified));
        Chain(v, env, st, u.st, r);
        r
    else
      var n := ParseNumberUnnamed(v, env, st, AsDigits(v, kind, first));
      if n.st.errorBool then n.st
      else
        var r := Act(v, env, n.st, MakeDevice(n.value.device.value, kind, n.value.qualifier.value));
        Chain(v, env, st, n.st, r);
        r
  }

  /** The comma loop of a handler: further items while no error has been raised. */
  function Items(v: Variant, env: Env, st: PState, stmt: Statement): (r: PState)
    requires Wf(v, env, st)
    ensures Keeps(v, env, r, st) && Appends(v, st, r) && KeepsTidy(v, st, r)
    ensures r.errorBool || !IsType(r.symbol, Comma)
    ensures st.errorBool ==> r == st
    decreases MeasureA(st), MeasureB(v, env, st)
  {
    if st.errorBool || !IsType(st.symbol, Comma) then st
    else
      GetSymAdvances(v, env, st);
      var st1 := Item(v, env, GetSym(st), stmt, false);
      var r := Items(v, env, st1, stmt);
      Chain(v, env, st, st1, r);
      r
  }

  /** One pass of the comma loop: it reads past the comma and parses one item, decreasing the measure. */
  lemma ItemsStep(v: Variant, env: Env, st: PState, stmt: Statement)
    requires Wf(v, env, st) && !st.errorBool && IsType(st.symbol, Comma)
    ensures Wf(v, env, GetSym(st))
    ensures Items(v, env, st, stmt) == Items(v, env, Item(v, env, GetSym(st), stmt, false), stmt)
    ensures Lt(v, env, Item(v, env, GetSym(st), stmt, false), st)
  {
    GetSymAdvances(v, env, st);
    LeTrans(v, env, Item(v, env, GetSym(st), stmt, false), GetSym(st), st);
  }

  /** The first two lines of every handler: hold the reserved word in `temp_queue` and read on. */
  function Hold(v: Variant, env: Env, st: PState): (r: PState)
    requires Wf(v, env, st) && Dispatchable(v, env, st.symbol)
    ensures Wf(v, env, r) && r.src.input == st.src.input && Silent(st, r)
    ensures Le(v, env, r, st) && (Lt(v, env, r, st) || !IsType(r.symbol, Eof))
    ensures r.src.tempQueue == st.src.tempQueue + [st.symbol]
    ensures st.src.priorityQueue == [] ==> r.src.priorityQueue == []
  {
    var st0 := st.(src := st.src.(tempQueue := st.src.tempQueue + [st.symbol]));
    GetSymAdvances(v, env, st0);
    GetSym(st0)
  }

  predicate Clean(st: PState) {
    st.src.priorityQueue == [] && st.src.tempQueue == []
  }

  /** A `*_keyword` handler: hold the reserved word in `temp_queue`, parse the first item and the comma
      loop, then the closing `;` unless an error was raised. */
  function Handle(v: Variant, env: Env, st: PState, stmt: Statement): (r: PState)
    requires Wf(v, env, st) && Dispatchable(v, env, st.symbol)
    ensures Advances(v, env, r, st) && Appends(v, st, r)
    ensures v.fidelity == Corrected && Clean(st) && !st.errorBool ==> Clean(r)
  {
    var st1 := Hold(v, env, st);
    var st2 := Item(v, env, st1, stmt, true);
    var st3 := Items(v, env, st2, stmt);
    Chain(v, env, st1, st2, st3);
    if st3.errorBool then st3
    else
      var r := ParseSemicolon(v, env, st3);
      Chain(v, env, st1, st3, r);
      r
  }

  /** One pass of the loop of `parse_network`: reset `error_bool`, then run the handler of the reserved
      word or report KEYWORD_EXPECTED. */
  function ParseStatement(v: Variant, env: Env, st: PState): (r: PState)
    requires Wf(v, env, st) && !IsType(st.symbol, Eof)
    ensures Advances(v, env, r, st) && Appends(v, st.(errorBool := false), r)
    ensures v.fidelity == Corrected && Clean(st) ==> Clean(r)
    ensures StatementOf(v, env, st.symbol).None? ==> r.events == st.events + [Reported(KeywordExpected)]
  {
    var st0 := st.(errorBool := false);
    match StatementOf(v, env, st.symbol)
    case Some(stmt) => Handle(v, env, st0, stmt)
    case None => Error(v, env, st0, KeywordExpected)
  }

  /** The loop of `parse_network`: statements until EOF. */
  function ParseStatements(v: Variant, env: Env, st: PState): (r: PState)
    requires Wf(v, env, st)
    ensures Keeps(v, env, r, st) && IsType(r.symbol, Eof)
    decreases MeasureA(st), MeasureB(v, env, st)
  {
    if IsType(st.symbol, Eof) then st
    else ParseStatements(v, env, ParseStatement(v, env, st))
  }

  /** The state of a parser over a freshly opened file, before its first symbol has been read. */
  function Initial(input: seq<Symbol>): PState {
    PState(EofSymbol, false, 0, [], Source(input, 0, [], []), map[])
  }

  /** `parse_network`: read the first symbol, parse statements until EOF, and answer whether no error was
      counted; also the final state. */
  function ParseNetwork(v: Variant, env: Env, input: seq<Symbol>): (r: (bool, PState))
    requires InputWf(env, input)
    ensures Wf(v, env, r.1) && r.1.src.input == input && IsType(r.1.symbol, Eof)
    ensures r.1.src.pos == |input| && r.1.src.priorityQueue == []
    ensures r.0 <==> r.1.errorCount == 0
  {
    var st1 := GetSym(Initial(input));
    assert input != [] ==> st1.symbol == input[0];
    var fin := ParseStatements(v, env, st1);
    (fin.errorCount == 0, fin)
  }

  /** `parse_network` starts from a well-formed state with no events and no errors. */
  lemma NetworkStart(v: Variant, env: Env, input: seq<Symbol>)
    requires InputWf(env, input)
    ensures var st1 := GetSym(Initial(input));
      && Wf(v, env, st1) && st1.events == [] && st1.errorCount == 0
      && ParseNetwork(v, env, input).1 == ParseStatements(v, env, st1)
  {
    assert input != [] ==> GetSym(Initial(input)).symbol == input[0];
  }

  /** One pass of the loop of `parse_network`: one statement, decreasing the measure. */
  lemma StatementsStep(v: Variant, env: Env, st: PState)
    requires Wf(v, env, st) && !IsType(st.symbol, Eof)
    ensures Wf(v, env, ParseStatement(v, env, st))
    ensures ParseStatements(v, env, st) == ParseStatements(v, env, ParseStatement(v, env, st))
    ensures Lt(v, env, ParseStatement(v, env, st), st)
  {
  }
}
