/** The parser of final/logsim/parse.py (and of logsim/parse.py, selected by `variant`) as the object it
    is: the current symbol, `error_bool` and `error_count` are fields, the token source is a separate
    object whose queues the parser changes, and the skip loop of `error()`, the comma loop of the handlers
    and the loop of `parse_network` are loops. Every method is proved to do exactly what the step function
    of the same name in module ParseSpec says. */
module Parser {
  import opened Wrappers
  import Symbols
  import opened Tokens
  import opened Circuit
  import ParseSpec

  class Parser {
    const variant: ParseSpec.Variant
    const env: Env
    const scanner: TokenSource
    var symbol: Symbol
    var errorBool: bool
    var errorCount: nat
    /** What the parser has reported and which calls it made into the devices, network and monitors
        objects, with their results. */
    var events: seq<ParseSpec.Event>
    /** The devices `get_device` knows, with their ports. */
    var devices: map<int, Ports>

    function Snapshot(): ParseSpec.PState
      reads this, scanner
    {
      ParseSpec.PState(symbol, errorBool, errorCount, events, scanner.State(), devices)
    }

    ghost predicate Valid()
      reads this, scanner
    {
      ParseSpec.Wf(variant, env, Snapshot())
    }

    /** A parser reading from `scanner`, with no error counted and no device known yet. */
    constructor (variant: ParseSpec.Variant, env: Env, scanner: TokenSource)
      ensures this.variant == variant && this.env == env && this.scanner == scanner
      ensures Snapshot() == ParseSpec.PState(EofSymbol, false, 0, [], scanner.State(), map[])
    {
      this.variant := variant;
      this.env := env;
      this.scanner := scanner;
      symbol := EofSymbol;
      errorBool := false;
      errorCount := 0;
      events := [];
      devices := map[];
    }

    /** `self.symbol = self.scanner.get_symbol()` */
    method ReadSymbol()
      modifies this, scanner
      ensures Snapshot() == ParseSpec.GetSym(old(Snapshot()))
    {
      symbol := scanner.GetSymbol();
    }

    /** `error(error_code)` */
    method Error(code: ErrorCode)
      requires Valid()
      modifies this, scanner
      ensures Snapshot() == ParseSpec.Error(variant, env, old(Snapshot()), code)
    {
      ghost var st := Snapshot();
      ParseSpec.SameSymbols(variant, env, st, ParseSpec.Mark(st, code));
      errorBool := true;
      errorCount := errorCount + 1;
      events := events + [ParseSpec.Reported(code)];
      assert Snapshot() == ParseSpec.Mark(st, code);
      SkipToStop();
      Resume();
    }

    /** The skip loop of `error()`. */
    method SkipToStop()
      requires Valid()
      modifies this, scanner
      ensures Snapshot() == ParseSpec.Skip(variant, env, old(Snapshot()))
    {
      ghost var st1 := Snapshot();
      while !ParseSpec.IsStop(symbol)
        invariant Valid()
        invariant ParseSpec.Skip(variant, env, Snapshot()) == ParseSpec.Skip(variant, env, st1)
        decreases ParseSpec.MeasureA(Snapshot()), ParseSpec.MeasureB(variant, env, Snapshot())
      {
        ParseSpec.GetSymAdvances(variant, env, Snapshot());
        ReadSymbol();
      }
    }

    /** The rest of `error()`, once the skip loop has stopped. */
    method Resume()
      requires Valid() && ParseSpec.IsStop(symbol) && scanner.priorityQueue == []
      modifies this, scanner
      ensures Snapshot() == ParseSpec.Resume(variant, env, old(Snapshot()))
    {
      if IsType(symbol, Symbols.Comma) {
        scanner.priorityQueue := scanner.tempQueue;
        scanner.tempQueue := [];
      } else if variant.fidelity == ParseSpec.Corrected {
        scanner.tempQueue := [];
      }
      if !IsType(symbol, Symbols.Eof) {
        ReadSymbol();
      }
    }

    /** `semicolon()` */
    method Semicolon()
      requires Valid()
      modifies this, scanner
      ensures Snapshot() == ParseSpec.ParseSemicolon(variant, env, old(Snapshot()))
    {
      if IsType(symbol, Symbols.Semicolon) {
        ReadSymbol();
        scanner.tempQueue := [];
      } else {
        Error(SemicolonExpected);
      }
    }

    /** `arrow()` */
    method Arrow()
      requires Valid()
      modifies this, scanner
      ensures Snapshot() == ParseSpec.ParseArrow(variant, env, old(Snapshot()))
    {
      if IsType(symbol, Symbols.Arrow) {
        ReadSymbol();
      } else {
        Error(ArrowExpected);
      }
    }

    /** `number()` */
    method Number() returns (n: Option<int>)
      requires Valid()
      modifies this, scanner
      ensures ParseSpec.Step(Snapshot(), n) == ParseSpec.ParseNumber(variant, env, old(Snapshot()))
    {
      if IsType(symbol, Symbols.Number) {
        n := symbol.id;
        ReadSymbol();
      } else {
        Error(NumberExpected);
        n := None;
      }
    }

    /** `number_string()` */
    method NumberString() returns (digits: Option<string>)
      requires Valid()
      modifies this, scanner
      ensures ParseSpec.Step(Snapshot(), digits) == ParseSpec.ParseNumberString(variant, env, old(Snapshot()))
    {
      if IsType(symbol, Symbols.Number) {
        digits := Some(symbol.numString);
        ReadSymbol();
      } else {
        Error(NumberExpected);
        digits := None;
      }
    }

    /** `unnamed_device()` */
    method UnnamedDevice() returns (id: Option<int>)
      requires Valid()
      modifies this, scanner
      ensures ParseSpec.Step(Snapshot(), id) == ParseSpec.ParseUnnamedDevice(variant, env, old(Snapshot()))
    {
      if IsType(symbol, Symbols.Name) && symbol.id.value !in devices {
        id := symbol.id;
        ReadSymbol();
      } else if symbol.id.Some? && symbol.id.value in devices {
        Error(DevicePresent);
        id := None;
      } else {
        Error(NameExpected);
        id := None;
      }
    }

    /** `number_unnamed(string)` */
    method NumberUnnamed(asString: bool) returns (q: Option<Qualifier>, id: Option<int>)
      requires Valid()
      modifies this, scanner
      ensures ParseSpec.Step(Snapshot(), ParseSpec.NumberedName(q, id))
              == ParseSpec.ParseNumberUnnamed(variant, env, old(Snapshot()), asString)
    {
      if asString {
        var digits := NumberString();
        q := if digits.Some? then Some(BitString(digits.value)) else None;
      } else {
        var n := Number();
        q := if n.Some? then Some(Quantity(n.value)) else None;
      }
      id := None;
      if !errorBool {
        id := UnnamedDevice();
      }
    }

    /** `device()` */
    method Device() returns (id: Option<int>)
      requires Valid()
      modifies this, scanner
      ensures ParseSpec.Step(Snapshot(), id) == ParseSpec.ParseDevice(variant, env, old(Snapshot()))
    {
      if IsType(symbol, Symbols.Name) && symbol.id.value in devices {
        id := symbol.id;
        ReadSymbol();
      } else if IsType(symbol, Symbols.Name) {
        Error(DeviceAbsent);
        id := None;
      } else {
        Error(NameExpected);
        id := None;
      }
    }

    /** `device_port(device)` for an existing device with ports `ports`. */
    method DevicePort(ports: Ports) returns (port: Option<int>)
      requires Valid()
      modifies this, scanner
      ensures ParseSpec.Step(Snapshot(), port) == ParseSpec.ParseDevicePort(variant, env, old(Snapshot()), ports)
    {
      port := None;
      if IsType(symbol, Symbols.Name) {
        if ParseSpec.PortOf(ports, symbol.id.value) {
          port := symbol.id;
          ReadSymbol();
        } else {
          Error(PortAbsent);
        }
      } else {
        Error(NameExpected);
      }
    }

    /** `node()` */
    method Node() returns (device: Option<int>, port: Option<int>)
      requires Valid()
      modifies this, scanner
      ensures ParseSpec.Step(Snapshot(), ParseSpec.NodeValue(device, port))
              == ParseSpec.ParseNode(variant, env, old(Snapshot()))
    {
      ghost var st := Snapshot();
      device := Device();
      port := None;
      if !errorBool && IsType(symbol, Symbols.Dot) {
        ParseSpec.GetSymAdvances(variant, env, Snapshot());
        ReadSymbol();
        port := DevicePort(devices[device.value]);
      } else if !errorBool && None !in devices[device.value].outputs {
        Error(PortAbsent);
      }
    }

    /** `connection()` */
    method Connection() returns (input: ParseSpec.NodeValue, output: ParseSpec.NodeValue)
      requires Valid()
      modifies this, scanner
      ensures ParseSpec.Step(Snapshot(), (input, output)) == ParseSpec.ParseConnection(variant, env, old(Snapshot()))
    {
      var d, p := Node();
      input := ParseSpec.NodeValue(d, p);
      output := ParseSpec.NodeValue(None, None);
      if !errorBool {
        Arrow();
      }
      if !errorBool {
        d, p := Node();
        output := ParseSpec.NodeValue(d, p);
      }
    }

    /** A call into the devices, network or monitors object, and the check of its result. */
    method Call(call: Circuit.Call)
      requires Valid()
      modifies this, scanner
      ensures Snapshot() == ParseSpec.Act(variant, env, old(Snapshot()), call)
    {
      ghost var st := Snapshot();
      var res := env.respond(ParseSpec.CallsOf(events), call);
      events := events + [ParseSpec.Called(call, res)];
      if call.MakeDevice? && res == NoError {
        devices := devices[call.device := env.portsOf(call.device, call.kind, call.qualifier)];
      }
      ParseSpec.SameSymbols(variant, env, st, Snapshot());
      if ParseSpec.Checked(variant, call) && res != NoError {
        Error(res);
      }
    }

    /** One item of a statement and its call. */
    method Item(stmt: Statement, first: bool)
      requires Valid()
      modifies this, scanner
      ensures Snapshot() == ParseSpec.Item(variant, env, old(Snapshot()), stmt, first)
    {
      match stmt
      case ConnectStatement =>
        var input, output := Connection();
        if !errorBool {
          Call(MakeConnection(input.device.value, input.port, output.device.value, output.port));
        }
      case MonitorStatement =>
        var d, p := Node();
        if !errorBool {
          Call(MakeMonitor(d.value, p));
        }
      case DeviceStatement(kind) =>
        if kind == Xor || kind == DType {
          var id := UnnamedDevice();
          if !errorBool {
            Call(MakeDevice(id.value, kind, Unqualified));
          }
        } else {
          var q, id := NumberUnnamed(ParseSpec.AsDigits(variant, kind, first));
          if !errorBool {
            Call(MakeDevice(id.value, kind, q.value));
          }
        }
    }

    /** The `*_keyword` handler of `stmt`. */
    method Handle(stmt: Statement)
      requires Valid() && ParseSpec.Dispatchable(variant, env, symbol)
      modifies this, scanner
      ensures Snapshot() == ParseSpec.Handle(variant, env, old(Snapshot()), stmt)
    {
      ghost var st := Snapshot();
      scanner.tempQueue := scanner.tempQueue + [symbol];
      ReadSymbol();
      assert Snapshot() == ParseSpec.Hold(variant, env, st);
      Item(stmt, true);
      MoreItems(stmt);
      if !errorBool {
        Semicolon();
      }
    }

    /** The comma loop of a handler. */
    method MoreItems(stmt: Statement)
      requires Valid()
      modifies this, scanner
      ensures Snapshot() == ParseSpec.Items(variant, env, old(Snapshot()), stmt)
    {
      ghost var st := Snapshot();
      while !errorBool && IsType(symbol, Symbols.Comma)
        invariant Valid()
        invariant ParseSpec.Items(variant, env, Snapshot(), stmt) == ParseSpec.Items(variant, env, st, stmt)
        decreases ParseSpec.MeasureA(Snapshot()), ParseSpec.MeasureB(variant, env, Snapshot())
      {
        ParseSpec.ItemsStep(variant, env, Snapshot(), stmt);
        ReadSymbol();
        Item(stmt, false);
      }
    }

    /** `parse_network()` on a freshly created parser and token source. */
    method ParseNetwork() returns (ok: bool)
      requires Snapshot() == ParseSpec.Initial(scanner.input) && ParseSpec.InputWf(env, scanner.input)
      modifies this, scanner
      ensures (ok, Snapshot()) == ParseSpec.ParseNetwork(variant, env, scanner.input)
    {
      ReadSymbol();
      ParseSpec.NetworkStart(variant, env, scanner.input);
      ghost var st1 := Snapshot();
      while !IsType(symbol, Symbols.Eof)
        invariant Valid()
        invariant ParseSpec.ParseStatements(variant, env, Snapshot()) == ParseSpec.ParseStatements(variant, env, st1)
        decreases ParseSpec.MeasureA(Snapshot()), ParseSpec.MeasureB(variant, env, Snapshot())
      {
        ParseSpec.StatementsStep(variant, env, Snapshot());
        Statement();
      }
      ok := errorCount == 0;
    }

    /** One pass of the loop of `parse_network`. */
    method Statement()
      requires Valid() && !IsType(symbol, Symbols.Eof)
      modifies this, scanner
      ensures Snapshot() == ParseSpec.ParseStatement(variant, env, old(Snapshot()))
    {
      ghost var st := Snapshot();
      errorBool := false;
      ParseSpec.SameSymbols(variant, env, st, Snapshot());
      match ParseSpec.StatementOf(variant, env, symbol)
      case Some(stmt) =>
        Handle(stmt);
      case None =>
        Error(KeywordExpected);
    }
  }
}
