/** Properties of the parser proved about the step functions of module ParseSpec: error accounting,
    where the recovery of `error()` resumes, the queue discipline of the corrected recovery, and the
    outcomes of the node and device items. */
module ParseProperties {
  import opened Wrappers
  import opened Symbols
  import opened Tokens
  import opened Circuit
  import opened ParseSpec

  // ---------------------------------------------------------------------------------------------
  // Error accounting

  predicate NoReports(e: seq<Event>) {
    forall i :: 0 <= i < |e| ==> !e[i].Reported?
  }

  lemma {:induction false} CountReportsAppend(a: seq<Event>, b: seq<Event>)
    ensures CountReports(a + b) == CountReports(a) + CountReports(b)
    decreases |b|
  {
    if b != [] {
      assert (a + b)[..|a + b| - 1] == a + b[..|b| - 1];
      CountReportsAppend(a, b[..|b| - 1]);
    } else {
      assert a + b == a;
    }
  }

  /** No error was reported exactly when none was counted. */
  lemma {:induction false} CountReportsZero(e: seq<Event>)
    ensures CountReports(e) == 0 <==> NoReports(e)
  {
    if e != [] {
      CountReportsZero(e[..|e| - 1]);
      if NoReports(e[..|e| - 1]) && !e[|e| - 1].Reported? {
        forall i | 0 <= i < |e| ensures !e[i].Reported? {
          if i < |e| - 1 {
            assert e[i] == e[..|e| - 1][i];
          }
        }
      }
      if NoReports(e) {
        var p := e[..|e| - 1];
        forall i | 0 <= i < |p| ensures !p[i].Reported? {
          assert p[i] == e[i];
        }
      }
    }
  }

  /** In one pass of a step, the error count rises by the number of errors reported. */
  lemma AppendsCounts(v: Variant, st: PState, r: PState)
    requires Appends(v, st, r)
    ensures r.events == st.events + r.events[|st.events|..]
    ensures r.errorCount == st.errorCount + CountReports(r.events[|st.events|..])
  {
    var e := r.events[|st.events|..];
    assert r.events == r.events[..|st.events|] + e;
    if e != [] {
      var p := e[..|e| - 1];
      forall i | 0 <= i < |p| ensures !p[i].Reported? {
        assert p[i] == e[i];
      }
      CountReportsZero(p);
    }
  }

  /** Counting over two stretches of events in a row. */
  lemma CountsCompose(a: seq<Event>, b: seq<Event>, c: seq<Event>, na: nat, nb: nat, nc: nat)
    requires |a| <= |b| && b[..|a|] == a && nb == na + CountReports(b[|a|..])
    requires |b| <= |c| && c[..|b|] == b && nc == nb + CountReports(c[|b|..])
    ensures |a| <= |c| && c[..|a|] == a && nc == na + CountReports(c[|a|..])
  {
    assert c[|a|..] == b[|a|..] + c[|b|..];
    CountReportsAppend(b[|a|..], c[|b|..]);
  }

  /** One pass of the loop of `parse_network` only appends to the events, and the error count rises by
      the number of errors it reported. */
  lemma StatementCounts(v: Variant, env: Env, st: PState)
    requires Wf(v, env, st) && !IsType(st.symbol, Eof)
    ensures var m := ParseStatement(v, env, st);
      && |st.events| <= |m.events| && m.events[..|st.events|] == st.events
      && m.errorCount == st.errorCount + CountReports(m.events[|st.events|..])
  {
    AppendsCounts(v, st.(errorBool := false), ParseStatement(v, env, st));
  }

  /** The loop of `parse_network` only appends to the events, and the error count rises by exactly the
      number of errors reported. */
  lemma {:induction false} StatementsCount(v: Variant, env: Env, st: PState)
    requires Wf(v, env, st)
    ensures var r := ParseStatements(v, env, st);
      && |st.events| <= |r.events| && r.events[..|st.events|] == st.events
      && r.errorCount == st.errorCount + CountReports(r.events[|st.events|..])
    decreases MeasureA(st), MeasureB(v, env, st)
  {
    if IsType(st.symbol, Eof) {
      assert st.events[|st.events|..] == [];
    } else {
      var m := ParseStatement(v, env, st);
      StatementCounts(v, env, st);
      StatementsCount(v, env, m);
      var r := ParseStatements(v, env, m);
      assert r == ParseStatements(v, env, st);
      CountsCompose(st.events, m.events, r.events, st.errorCount, m.errorCount, r.errorCount);
    }
  }

  /** `parse_network` answers True exactly when no error was reported, and its error count is the number
      of errors reported. */
  lemma ParseNetworkCounts(v: Variant, env: Env, input: seq<Symbol>)
    requires InputWf(env, input)
    ensures ParseNetwork(v, env, input).1.errorCount == CountReports(ParseNetwork(v, env, input).1.events)
    ensures ParseNetwork(v, env, input).0 <==> NoReports(ParseNetwork(v, env, input).1.events)
  {
    var st1 := GetSym(Initial(input));
    NetworkStart(v, env, input);
    StatementsCount(v, env, st1);
    var fin := ParseNetwork(v, env, input).1;
    assert fin.events[0..] == fin.events;
    CountReportsZero(fin.events);
  }

  // ---------------------------------------------------------------------------------------------
  // Where the recovery resumes

  /** The symbols the parser will see, starting with the current one. */
  function Stream(st: PState): seq<Symbol> {
    [st.symbol] + Pending(st.src)
  }

  /** The reference definition of the skip loop: drop symbols up to the first `;`, `,` or EOF. */
  function DropNonStops(s: seq<Symbol>): (r: seq<Symbol>)
    ensures |r| <= |s| && r == s[|s| - |r|..]
    ensures r != [] ==> IsStop(r[0])
    ensures forall i :: 0 <= i < |s| - |r| ==> !IsStop(s[i])
  {
    if s == [] || IsStop(s[0]) then s else DropNonStops(s[1..])
  }

  /** The parser continues with exactly the symbols `s`, or with EOF when `s` is empty. */
  predicate Resumes(st: PState, s: seq<Symbol>) {
    if s == [] then st.symbol == EofSymbol && Pending(st.src) == [] else Stream(st) == s
  }

  lemma GetSymStream(v: Variant, env: Env, st: PState)
    ensures Resumes(GetSym(st), Pending(st.src))
  {
  }

  /** The skip loop of `error()` stops at the first `;`, `,` or EOF of the stream, having consumed
      nothing else. */
  lemma {:induction false} SkipDropsNonStops(v: Variant, env: Env, st: PState)
    requires Wf(v, env, st)
    ensures Resumes(Skip(v, env, st), DropNonStops(Stream(st)))
    decreases MeasureA(st), MeasureB(v, env, st)
  {
    if !IsStop(st.symbol) {
      var n := GetSym(st);
      SkipStep(v, env, st);
      GetSymStream(v, env, st);
      DropStep(st);
      if Pending(st.src) != [] {
        SkipDropsNonStops(v, env, n);
      }
    }
  }

  /** One pass of the skip loop reads the next symbol. */
  lemma SkipStep(v: Variant, env: Env, st: PState)
    requires Wf(v, env, st) && !IsStop(st.symbol)
    ensures Wf(v, env, GetSym(st)) && Lt(v, env, GetSym(st), st)
    ensures Skip(v, env, st) == Skip(v, env, GetSym(st))
    ensures IsStop(GetSym(st).symbol) ==> Skip(v, env, GetSym(st)) == GetSym(st)
  {
    GetSymAdvances(v, env, st);
  }

  /** A symbol that is no stop is dropped. */
  lemma DropStep(st: PState)
    requires !IsStop(st.symbol)
    ensures DropNonStops(Stream(st)) == DropNonStops(Pending(st.src))
  {
    assert Stream(st)[1..] == Pending(st.src);
  }

  /** Where the second half of `error()` leaves the parser, once the skip loop has stopped. */
  lemma ResumeStream(v: Variant, env: Env, st: PState)
    requires Wf(v, env, st) && IsStop(st.symbol) && st.src.priorityQueue == []
    ensures var r := Resume(v, env, st);
      && (IsType(st.symbol, Eof) ==> IsType(r.symbol, Eof))
      && (IsType(st.symbol, Semicolon) ==> Resumes(r, Pending(st.src)))
      && (IsType(st.symbol, Comma) ==> Resumes(r, st.src.tempQueue + Pending(st.src)) && r.src.tempQueue == [])
      && (v.fidelity == AsWritten && !IsType(st.symbol, Comma) ==> r.src.tempQueue == st.src.tempQueue)
  {
    if IsType(st.symbol, Comma) {
      var st3 := st.(src := st.src.(priorityQueue := st.src.tempQueue, tempQueue := []));
      assert Pending(st3.src) == st.src.tempQueue + Pending(st.src);
      GetSymStream(v, env, st3);
    }
  }

  /** Where `error()` leaves the parser: at EOF if the stream has no `;` or `,` left; after a `;`, with the
      symbols that follow it; after a `,`, with the held symbols replayed before those that follow it.
      As written, a recovery that stops at `;` or EOF keeps the held symbols. */
  lemma ErrorResumes(v: Variant, env: Env, st: PState, code: ErrorCode)
    requires Wf(v, env, st)
    ensures var d := DropNonStops(Stream(st)); var r := Error(v, env, st, code);
      && (d == [] || IsType(d[0], Eof) ==> IsType(r.symbol, Eof))
      && (d != [] && IsType(d[0], Semicolon) ==> Resumes(r, d[1..]))
      && (d != [] && IsType(d[0], Comma) ==> Resumes(r, st.src.tempQueue + d[1..]) && r.src.tempQueue == [])
      && (v.fidelity == AsWritten && (d == [] || !IsType(d[0], Comma)) ==> r.src.tempQueue == st.src.tempQueue)
  {
    var st1 := Mark(st, code);
    SameSymbols(v, env, st, st1);
    assert Stream(st1) == Stream(st);
    SkipDropsNonStops(v, env, st1);
    var st2 := Skip(v, env, st1);
    ResumeStream(v, env, st2);
    var d := DropNonStops(Stream(st));
    if d != [] {
      assert Stream(st2) == d;
      assert Pending(st2.src) == d[1..];
    }
  }

  /** Under the corrected recovery, a recovery at a comma replays exactly the statement's reserved word:
      the parser continues with it and then with what follows the comma, and holds nothing. */
  lemma ErrorReplaysKeyword(v: Variant, env: Env, st: PState, code: ErrorCode)
    requires Wf(v, env, st) && v.fidelity == Corrected
    requires st.src.priorityQueue == [] && |st.src.tempQueue| == 1
    requires var d := DropNonStops(Stream(st)); d != [] && IsType(d[0], Comma)
    ensures var r := Error(v, env, st, code);
      && r.symbol == st.src.tempQueue[0]
      && Pending(r.src) == DropNonStops(Stream(st))[1..]
      && Clean(r)
  {
    ErrorResumes(v, env, st, code);
    var r := Error(v, env, st, code);
    assert Stream(r)[0] == r.symbol;
    assert Stream(r)[1..] == Pending(r.src);
  }

  // ---------------------------------------------------------------------------------------------
  // The queue discipline at statement boundaries

  /** The states at which the loop of `parse_network` starts a pass, in order. */
  function Boundaries(v: Variant, env: Env, st: PState): (bs: seq<PState>)
    requires Wf(v, env, st)
    ensures bs != [] && bs[0] == st
    decreases MeasureA(st), MeasureB(v, env, st)
  {
    if IsType(st.symbol, Eof) then [st]
    else [st] + Boundaries(v, env, ParseStatement(v, env, st))
  }

  /** Under the corrected recovery, every pass of the loop of `parse_network` starts with both queues
      empty, once the first one did. */
  lemma {:induction false} BoundariesClean(v: Variant, env: Env, st: PState)
    requires Wf(v, env, st) && v.fidelity == Corrected && Clean(st)
    ensures forall i :: 0 <= i < |Boundaries(v, env, st)| ==> Clean(Boundaries(v, env, st)[i])
    decreases MeasureA(st), MeasureB(v, env, st)
  {
    if !IsType(st.symbol, Eof) {
      var m := ParseStatement(v, env, st);
      BoundariesClean(v, env, m);
      assert Boundaries(v, env, st) == [st] + Boundaries(v, env, m);
    }
  }

  /** Under the corrected recovery, `parse_network` starts every statement with both queues empty. */
  lemma ParseNetworkClean(v: Variant, env: Env, input: seq<Symbol>)
    requires InputWf(env, input) && v.fidelity == Corrected
    ensures var st1 := GetSym(Initial(input));
      Wf(v, env, st1) && forall i :: 0 <= i < |Boundaries(v, env, st1)| ==> Clean(Boundaries(v, env, st1)[i])
  {
    var st1 := GetSym(Initial(input));
    assert input != [] ==> st1.symbol == input[0];
    BoundariesClean(v, env, st1);
  }

  // ---------------------------------------------------------------------------------------------
  // Calls and items

  /** What one call does: it is recorded with its result, a created device becomes known, and a failing
      result is reported unless the earlier parser discards it (CLOCK). */
  lemma ActOutcome(v: Variant, env: Env, st: PState, call: Call)
    requires Wf(v, env, st)
    ensures var res := env.respond(CallsOf(st.events), call); var r := Act(v, env, st, call);
      && r.events == st.events + [Called(call, res)] + (if Checked(v, call) && res != NoError then [Reported(res)] else [])
      && r.errorCount == st.errorCount + (if Checked(v, call) && res != NoError then 1 else 0)
      && r.devices == (if call.MakeDevice? && res == NoError
                       then st.devices[call.device := env.portsOf(call.device, call.kind, call.qualifier)]
                       else st.devices)
  {
  }

  /** The earlier parser never counts an error for what `make_device` answers for a CLOCK. */
  lemma EarlyClockUnchecked(v: Variant, env: Env, st: PState, call: Call)
    requires Wf(v, env, st) && v.release == Early && call.MakeDevice? && call.kind == Clock
    ensures Act(v, env, st, call).errorCount == st.errorCount
    ensures Act(v, env, st, call).errorBool == st.errorBool
  {
  }

  /** A device item with a number calls `make_device` exactly once when its number and its name parsed,
      with the number read as a digit string exactly for SIGGEN items that `AsDigits` selects (as written
      only the first item of a statement, corrected every one) and as a quantity otherwise. */
  lemma DeviceItemQualifier(v: Variant, env: Env, st: PState, kind: DeviceKind, first: bool)
    requires Wf(v, env, st) && kind != Xor && kind != DType
    ensures var n := ParseNumberUnnamed(v, env, st, AsDigits(v, kind, first)); var r := DeviceItem(v, env, st, kind, first);
      && (n.st.errorBool ==> r == n.st)
      && (!n.st.errorBool ==>
            var call := MakeDevice(n.value.device.value, kind, n.value.qualifier.value);
            && r.events[|n.st.events|] == Called(call, env.respond(CallsOf(n.st.events), call))
            && (n.value.qualifier.value.BitString? <==> AsDigits(v, kind, first))
            && (n.value.qualifier.value.Quantity? <==> !AsDigits(v, kind, first)))
  {
    var n := ParseNumberUnnamed(v, env, st, AsDigits(v, kind, first));
    if !n.st.errorBool {
      ActOutcome(v, env, n.st, MakeDevice(n.value.device.value, kind, n.value.qualifier.value));
    }
  }

  /** A CONNECT item calls `make_connection` exactly when both nodes and the arrow parsed, and then with
      the two nodes in the order written. */
  lemma ConnectItemCalls(v: Variant, env: Env, st: PState)
    requires Wf(v, env, st) && !st.errorBool
    ensures var c := ParseConnection(v, env, st); var r := ConnectItem(v, env, st);
      && (!c.st.errorBool <==> exists i :: |st.events| <= i < |r.events| && r.events[i].Called?)
      && (!c.st.errorBool ==>
            r.events[|c.st.events|].call == MakeConnection(c.value.0.device.value, c.value.0.port,
                                                           c.value.1.device.value, c.value.1.port))
  {
    var c := ParseConnection(v, env, st);
    ConnectItemUnfold(v, env, st);
    if !c.st.errorBool {
      var call := MakeConnection(c.value.0.device.value, c.value.0.port, c.value.1.device.value, c.value.1.port);
      ActFirst(v, env, c.st, call);
    } else {
      SyntaxOnlyCallsNothing(st, c.st);
    }
  }

  /** A CONNECT item is its connection followed, when that parsed, by one `make_connection`. */
  lemma ConnectItemUnfold(v: Variant, env: Env, st: PState)
    requires Wf(v, env, st)
    ensures var c := ParseConnection(v, env, st);
      ConnectItem(v, env, st) == (if c.st.errorBool then c.st
                                  else Act(v, env, c.st, MakeConnection(c.value.0.device.value, c.value.0.port,
                                                                        c.value.1.device.value, c.value.1.port)))
  {
  }

  /** The first event a call adds is the call itself. */
  lemma ActFirst(v: Variant, env: Env, st: PState, call: Call)
    requires Wf(v, env, st)
    ensures var r := Act(v, env, st, call);
      |st.events| < |r.events| && r.events[|st.events|] == Called(call, env.respond(CallsOf(st.events), call))
  {
    ActOutcome(v, env, st, call);
  }

  /** A step that only parses adds no call. */
  lemma SyntaxOnlyCallsNothing(st: PState, r: PState)
    requires SyntaxOnly(st, r)
    ensures forall i :: |st.events| <= i < |r.events| ==> !r.events[i].Called?
  {
  }

  /** A MONITOR item calls `make_monitor` exactly once when its node parsed, and a failing result is
      counted as an error. */
  lemma MonitorItemCalls(v: Variant, env: Env, st: PState)
    requires Wf(v, env, st) && !st.errorBool
    ensures var n := ParseNode(v, env, st); var r := MonitorItem(v, env, st);
      && (n.st.errorBool ==> r == n.st && SyntaxOnly(st, r))
      && (!n.st.errorBool ==>
            var call := MakeMonitor(n.value.device.value, n.value.port);
            var res := env.respond(CallsOf(n.st.events), call);
            && r.events == st.events + [Called(call, res)] + (if res != NoError then [Reported(res)] else [])
            && r.errorCount == st.errorCount + (if res != NoError then 1 else 0))
  {
    var n := ParseNode(v, env, st);
    if !n.st.errorBool {
      ActOutcome(v, env, n.st, MakeMonitor(n.value.device.value, n.value.port));
    }
  }

  /** The outcomes of `node()` when no error has been raised before it. */
  lemma NodeOutcomes(v: Variant, env: Env, st: PState)
    requires Wf(v, env, st) && !st.errorBool
    ensures var r := ParseNode(v, env, st); var s := st.symbol;
      && (!IsType(s, Name) ==> r.st.events == st.events + [Reported(NameExpected)])
      && (IsType(s, Name) && s.id.value !in st.devices ==> r.st.events == st.events + [Reported(DeviceAbsent)])
      && (IsType(s, Name) && s.id.value in st.devices ==>
            var ports := st.devices[s.id.value]; var d := GetSym(st);
            && (!IsType(d.symbol, Dot) && None !in ports.outputs ==>
                  r.st.events == st.events + [Reported(PortAbsent)])
            && (!IsType(d.symbol, Dot) && None in ports.outputs ==>
                  r == Step(d, NodeValue(s.id, None)))
            && (IsType(d.symbol, Dot) ==>
                  var p := GetSym(d).symbol;
                  && (IsType(p, Name) && PortOf(ports, p.id.value) ==>
                        r == Step(GetSym(GetSym(d)), NodeValue(s.id, p.id)))
                  && (IsType(p, Name) && !PortOf(ports, p.id.value) ==>
                        r.st.events == st.events + [Reported(PortAbsent)])
                  && (!IsType(p, Name) ==> r.st.events == st.events + [Reported(NameExpected)])))
  {
    var d := ParseDevice(v, env, st);
    if d.value.Some? && IsType(d.st.symbol, Dot) {
      GetSymAdvances(v, env, d.st);
      GetSymAdvances(v, env, st);
    }
  }
}
