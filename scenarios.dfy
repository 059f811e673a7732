/** Two definition files run through the parser model, each showing one defect of the recovery or of the
    item parsing, and what the corrected model does with the same file. */
module Scenarios {
  import opened Wrappers
  import opened Symbols
  import opened Tokens
  import opened Circuit
  import opened ParseSpec

  /** Reserved-word ids 1 (AND), 2 (OR) and 3 (SIGGEN); every call succeeds; every device has the output
      `None`. */
  const Kw: map<int, Statement> := map[1 := DeviceStatement(And), 2 := DeviceStatement(Or), 3 := DeviceStatement(SigGen)]
  const E: Env := Env(Kw, (calls: seq<Call>, call: Call) => NoError,
                      (id: int, kind: DeviceKind, q: Qualifier) => Ports({}, {None}))

  function V(f: Fidelity): Variant {
    Variant(Final, f)
  }

  const AndS := Symbol(Some(Keyword), Some(1), "")
  const OrS := Symbol(Some(Keyword), Some(2), "")
  const Semi := Symbol(Some(Semicolon), None, "")
  const X := Symbol(Some(Name), Some(20), "")
  const CommaS := Symbol(Some(Comma), None, "")
  const Two := Symbol(Some(Number), Some(2), "2")
  const G2 := Symbol(Some(Name), Some(21), "")

  /** `AND ; OR x , 2 G2 ;` */
  const In: seq<Symbol> := [AndS, Semi, OrS, X, CommaS, Two, G2, Semi]

  lemma InWf()
    ensures InputWf(E, In)
  {
    forall i | 0 <= i < |In| ensures SymbolWf(E, In[i]) && !IsType(In[i], Eof) {
      assert i == 0 || i == 1 || i == 2 || i == 3 || i == 4 || i == 5 || i == 6 || i == 7;
    }
  }

  const A0 := PState(AndS, false, 0, [], Source(In, 1, [], []), map[])

  lemma Start(f: Fidelity)
    ensures Wf(V(f), E, A0) && GetSym(Initial(In)) == A0
  {
    InWf();
  }

  // `AND ;` : NUMBER_EXPECTED at the `;`, where the recovery stops.

  const H0 := PState(Semi, false, 0, [], Source(In, 2, [], [AndS]), map[])
  const M0 := PState(Semi, true, 1, [Reported(NumberExpected)], Source(In, 2, [], [AndS]), map[])

  /** What is held after the recovery: as written the AND is left in `temp_queue`. */
  function Held1(f: Fidelity): seq<Symbol> {
    if f == AsWritten then [AndS] else []
  }

  function A1(f: Fidelity): PState {
    PState(OrS, true, 1, [Reported(NumberExpected)], Source(In, 3, [], Held1(f)), map[])
  }

  lemma Hold0(f: Fidelity)
    ensures Wf(V(f), E, A0) && Dispatchable(V(f), E, A0.symbol) && Hold(V(f), E, A0) == H0
  {
    InWf();
  }

  lemma Error0(f: Fidelity)
    ensures Wf(V(f), E, H0) && Wf(V(f), E, M0) && IsStop(M0.symbol)
    ensures Error(V(f), E, H0, NumberExpected) == A1(f)
  {
    InWf();
    assert Mark(H0, NumberExpected) == M0;
    assert Skip(V(f), E, M0) == M0;
    assert Resume(V(f), E, M0) == A1(f);
  }

  lemma Item0(f: Fidelity)
    ensures Wf(V(f), E, H0) && Item(V(f), E, H0, DeviceStatement(And), true) == A1(f)
  {
    Error0(f);
    DeviceItemUnfold(V(f), E, H0, And, true);
  }

  lemma Statement1(f: Fidelity)
    ensures Wf(V(f), E, A0) && ParseStatement(V(f), E, A0) == A1(f)
  {
    Hold0(f);
    Item0(f);
    StatementFails(V(f), E, A0, DeviceStatement(And));
  }

  // `OR x ,` : NUMBER_EXPECTED at `x`; the recovery stops at the comma and replays what is held.

  const Evs2 := [Reported(NumberExpected), Reported(NumberExpected)]

  function H1(f: Fidelity): PState {
    PState(X, false, 1, [Reported(NumberExpected)], Source(In, 4, [], Held1(f) + [OrS]), map[])
  }

  function S1(f: Fidelity): PState {
    PState(CommaS, true, 2, Evs2, Source(In, 5, [], Held1(f) + [OrS]), map[])
  }

  /** After the comma: as written the stale AND is replayed first, corrected the OR. */
  function A2(f: Fidelity): PState {
    if f == AsWritten then PState(AndS, true, 2, Evs2, Source(In, 5, [OrS], []), map[])
    else PState(OrS, true, 2, Evs2, Source(In, 5, [], []), map[])
  }

  lemma Hold1(f: Fidelity)
    ensures Wf(V(f), E, A1(f).(errorBool := false)) && Dispatchable(V(f), E, OrS)
    ensures Hold(V(f), E, A1(f).(errorBool := false)) == H1(f)
  {
    InWf();
  }

  lemma Error1(f: Fidelity)
    ensures Wf(V(f), E, H1(f)) && Error(V(f), E, H1(f), NumberExpected) == A2(f)
  {
    InWf();
    var m := Mark(H1(f), NumberExpected);
    assert Wf(V(f), E, m);
    assert Skip(V(f), E, m) == S1(f) by {
      assert GetSym(m).symbol == CommaS;
    }
    assert Resume(V(f), E, S1(f)) == A2(f);
  }

  lemma Statement2(f: Fidelity)
    ensures Wf(V(f), E, A1(f)) && ParseStatement(V(f), E, A1(f)) == A2(f)
  {
    Hold1(f);
    Error1(f);
    DeviceItemUnfold(V(f), E, H1(f), Or, true);
    StatementFails(V(f), E, A1(f), DeviceStatement(Or));
  }

  // As written: the replayed AND takes the OR as its number; the recovery skips `2 G2` to the `;`.

  const Evs3w := Evs2 + [Reported(NumberExpected)]
  const H2w := PState(OrS, false, 2, Evs2, Source(In, 5, [], [AndS]), map[])
  const S2w := PState(Semi, true, 3, Evs3w, Source(In, 8, [], [AndS]), map[])
  const A3w := PState(EofSymbol, true, 3, Evs3w, Source(In, 8, [], [AndS]), map[])

  lemma Error2AsWritten()
    ensures Wf(V(AsWritten), E, H2w) && Error(V(AsWritten), E, H2w, NumberExpected) == A3w
  {
    InWf();
    var v := V(AsWritten);
    var m := Mark(H2w, NumberExpected);
    assert Wf(v, E, m);
    var g1 := GetSym(m);
    var g2 := GetSym(g1);
    var g3 := GetSym(g2);
    assert g1.symbol == Two && g2.symbol == G2 && g3 == S2w;
    assert Skip(v, E, g2) == S2w;
    assert Skip(v, E, g1) == S2w;
    assert Skip(v, E, m) == S2w;
    assert Resume(v, E, S2w) == A3w;
  }

  lemma Statement3AsWritten()
    ensures Wf(V(AsWritten), E, A2(AsWritten)) && ParseStatement(V(AsWritten), E, A2(AsWritten)) == A3w
  {
    Hold2AsWritten();
    Error2AsWritten();
    DeviceItemUnfold(V(AsWritten), E, H2w, And, true);
    StatementFails(V(AsWritten), E, A2(AsWritten), DeviceStatement(And));
  }

  lemma Hold2AsWritten()
    ensures Wf(V(AsWritten), E, A2(AsWritten).(errorBool := false)) && Dispatchable(V(AsWritten), E, AndS)
    ensures Hold(V(AsWritten), E, A2(AsWritten).(errorBool := false)) == H2w
  {
    InWf();
  }

  // Corrected: the replayed OR reads `2 G2 ;` as its next gate.

  const MadeG2 := Called(MakeDevice(21, Or, Quantity(2)), NoError)
  const Evs3c := Evs2 + [MadeG2]
  const H2c := PState(Two, false, 2, Evs2, Source(In, 6, [], [OrS]), map[])
  const P1c := PState(G2, false, 2, Evs2, Source(In, 7, [], [OrS]), map[])
  const P2c := PState(Semi, false, 2, Evs2, Source(In, 8, [], [OrS]), map[])
  const Dc := PState(Semi, false, 2, Evs3c, Source(In, 8, [], [OrS]), map[21 := Ports({}, {None})])
  const A3c := PState(EofSymbol, false, 2, Evs3c, Source(In, 8, [], []), map[21 := Ports({}, {None})])

  lemma Number2Corrected()
    ensures Wf(V(Corrected), E, H2c) && ParseNumber(V(Corrected), E, H2c) == Step(P1c, Some(2))
  {
    InWf();
  }

  lemma Unnamed2Corrected()
    ensures Wf(V(Corrected), E, P1c) && ParseUnnamedDevice(V(Corrected), E, P1c) == Step(P2c, Some(21))
  {
    InWf();
  }

  lemma Act2Corrected()
    ensures Wf(V(Corrected), E, P2c) && Act(V(Corrected), E, P2c, MakeDevice(21, Or, Quantity(2))) == Dc
  {
    InWf();
  }

  lemma Item2Corrected()
    ensures Wf(V(Corrected), E, H2c) && Item(V(Corrected), E, H2c, DeviceStatement(Or), true) == Dc
  {
    var v := V(Corrected);
    Number2Corrected();
    Unnamed2Corrected();
    assert ParseNumberUnnamed(v, E, H2c, false) == Step(P2c, NumberedName(Some(Quantity(2)), Some(21)));
    Act2Corrected();
    DeviceItemUnfold(v, E, H2c, Or, true);
  }

  lemma Statement3Corrected()
    ensures Wf(V(Corrected), E, A2(Corrected)) && ParseStatement(V(Corrected), E, A2(Corrected)) == A3c
  {
    Hold2Corrected();
    Item2Corrected();
    End2Corrected();
    assert Handle(V(Corrected), E, A2(Corrected).(errorBool := false), DeviceStatement(Or)) == A3c;
  }

  lemma Hold2Corrected()
    ensures Wf(V(Corrected), E, A2(Corrected).(errorBool := false)) && Dispatchable(V(Corrected), E, OrS)
    ensures Hold(V(Corrected), E, A2(Corrected).(errorBool := false)) == H2c
  {
    InWf();
  }

  lemma End2Corrected()
    ensures Wf(V(Corrected), E, Dc) && Items(V(Corrected), E, Dc, DeviceStatement(Or)) == Dc
    ensures ParseSemicolon(V(Corrected), E, Dc) == A3c
  {
    InWf();
  }

  function A3(f: Fidelity): PState {
    if f == AsWritten then A3w else A3c
  }

  lemma Statements3(f: Fidelity)
    ensures Wf(V(f), E, A3(f)) && ParseStatements(V(f), E, A3(f)) == A3(f)
  {
    InWf();
  }

  lemma Statements2(f: Fidelity)
    ensures Wf(V(f), E, A2(f)) && ParseStatements(V(f), E, A2(f)) == A3(f)
  {
    if f == AsWritten {
      Statement3AsWritten();
    } else {
      Statement3Corrected();
    }
    Statements3(f);
  }

  lemma Network(f: Fidelity)
    ensures ParseNetwork(V(f), E, In) == (false, A3(f))
  {
    InWf();
    Start(f);
    Statement1(f);
    Statement2(f);
    Statements2(f);
    assert ParseStatements(V(f), E, A1(f)) == A3(f);
    assert ParseStatements(V(f), E, A0) == A3(f);
  }

  /** In `AND ; OR x , 2 G2 ;` the AND statement's error stops at its `;`, and as written `temp_queue`
      still holds the AND when the OR statement's error reaches the comma: the AND is replayed instead of
      the OR, `2` and `G2` are skipped as part of a bad AND item, and a third error is counted. Corrected,
      the OR is replayed and `2 G2` declares the OR gate G2. */
  lemma StaleKeywordReplayed()
    ensures ParseNetwork(V(AsWritten), E, In).1.events
            == [Reported(NumberExpected), Reported(NumberExpected), Reported(NumberExpected)]
    ensures ParseNetwork(V(Corrected), E, In).1.events
            == [Reported(NumberExpected), Reported(NumberExpected), Called(MakeDevice(21, Or, Quantity(2)), NoError)]
  {
    StaleKeywordAsWritten();
    StaleKeywordCorrected();
  }

  lemma StaleKeywordAsWritten()
    ensures ParseNetwork(V(AsWritten), E, In).1.events
            == [Reported(NumberExpected), Reported(NumberExpected), Reported(NumberExpected)]
  {
    Network(AsWritten);
  }

  lemma StaleKeywordCorrected()
    ensures ParseNetwork(V(Corrected), E, In).1.events
            == [Reported(NumberExpected), Reported(NumberExpected), Called(MakeDevice(21, Or, Quantity(2)), NoError)]
  {
    Network(Corrected);
  }

  // `SIGGEN 0110 S1, 0110 S2;`: the second signal generator's number is read as the number 110.

  const SigS := Symbol(Some(Keyword), Some(3), "")
  const Bits := Symbol(Some(Number), Some(110), "0110")
  const Sg1 := Symbol(Some(Name), Some(30), "")
  const Sg2 := Symbol(Some(Name), Some(31), "")

  const In2: seq<Symbol> := [SigS, Bits, Sg1, CommaS, Bits, Sg2, Semi]

  const P: Ports := Ports({}, {None})
  const First := Called(MakeDevice(30, SigGen, BitString("0110")), NoError)

  /** The qualifier the second item gets. */
  function SecondQualifier(f: Fidelity): Qualifier {
    if f == AsWritten then Quantity(110) else BitString("0110")
  }

  function Second(f: Fidelity): Event {
    Called(MakeDevice(31, SigGen, SecondQualifier(f)), NoError)
  }

  /** A numbered device item is its number and name followed, when both parsed, by one `make_device`. */
  lemma DeviceItemUnfold(v: Variant, env: Env, st: PState, kind: DeviceKind, first: bool)
    requires Wf(v, env, st) && kind != Xor && kind != DType
    ensures var n := ParseNumberUnnamed(v, env, st, AsDigits(v, kind, first));
      Item(v, env, st, DeviceStatement(kind), first)
      == (if n.st.errorBool then n.st
          else Act(v, env, n.st, MakeDevice(n.value.device.value, kind, n.value.qualifier.value)))
  {
  }

  /** A statement whose first item raises an error ends with that error. */
  lemma StatementFails(v: Variant, env: Env, st: PState, stmt: Statement)
    requires Wf(v, env, st) && StatementOf(v, env, st.symbol) == Some(stmt)
    requires Item(v, env, Hold(v, env, st.(errorBool := false)), stmt, true).errorBool
    ensures ParseStatement(v, env, st) == Item(v, env, Hold(v, env, st.(errorBool := false)), stmt, true)
  {
  }

  lemma In2Wf()
    ensures InputWf(E, In2)
  {
    forall i | 0 <= i < |In2| ensures SymbolWf(E, In2[i]) && !IsType(In2[i], Eof) {
      assert i == 0 || i == 1 || i == 2 || i == 3 || i == 4 || i == 5 || i == 6;
    }
  }

  const B0 := PState(SigS, false, 0, [], Source(In2, 1, [], []), map[])
  const Q0 := PState(Bits, false, 0, [], Source(In2, 2, [], [SigS]), map[])
  const Q1 := PState(Sg1, false, 0, [], Source(In2, 3, [], [SigS]), map[])
  const Q2 := PState(CommaS, false, 0, [], Source(In2, 4, [], [SigS]), map[])
  const Q3 := PState(CommaS, false, 0, [First], Source(In2, 4, [], [SigS]), map[30 := P])
  const Q4 := PState(Bits, false, 0, [First], Source(In2, 5, [], [SigS]), map[30 := P])
  const Q5 := PState(Sg2, false, 0, [First], Source(In2, 6, [], [SigS]), map[30 := P])
  const Q6 := PState(Semi, false, 0, [First], Source(In2, 7, [], [SigS]), map[30 := P])

  function Q7(f: Fidelity): PState {
    PState(Semi, false, 0, [First, Second(f)], Source(In2, 7, [], [SigS]), map[30 := P, 31 := P])
  }

  function Q8(f: Fidelity): PState {
    PState(EofSymbol, false, 0, [First, Second(f)], Source(In2, 7, [], []), map[30 := P, 31 := P])
  }

  lemma SigStart(f: Fidelity)
    ensures Wf(V(f), E, B0) && GetSym(Initial(In2)) == B0 && Hold(V(f), E, B0) == Q0
  {
    In2Wf();
  }

  lemma SigFirstParts(f: Fidelity)
    ensures Wf(V(f), E, Q0) && ParseNumberString(V(f), E, Q0) == Step(Q1, Some("0110"))
    ensures Wf(V(f), E, Q1) && ParseUnnamedDevice(V(f), E, Q1) == Step(Q2, Some(30))
  {
    In2Wf();
  }

  lemma SigFirstItem(f: Fidelity)
    ensures Wf(V(f), E, Q0) && Item(V(f), E, Q0, DeviceStatement(SigGen), true) == Q3
  {
    SigFirstNumbered(f);
    SigFirstAct(f);
    DeviceItemUnfold(V(f), E, Q0, SigGen, true);
  }

  lemma SigFirstNumbered(f: Fidelity)
    ensures Wf(V(f), E, Q0)
    ensures ParseNumberUnnamed(V(f), E, Q0, true) == Step(Q2, NumberedName(Some(BitString("0110")), Some(30)))
  {
    SigFirstParts(f);
  }

  lemma SigFirstAct(f: Fidelity)
    ensures Wf(V(f), E, Q2) && Act(V(f), E, Q2, MakeDevice(30, SigGen, BitString("0110"))) == Q3
  {
    In2Wf();
  }

  lemma SigSecondParts(f: Fidelity)
    ensures Wf(V(f), E, Q4)
    ensures ParseNumberUnnamed(V(f), E, Q4, AsDigits(V(f), SigGen, false))
            == Step(Q6, NumberedName(Some(SecondQualifier(f)), Some(31)))
  {
    In2Wf();
    assert ParseUnnamedDevice(V(f), E, Q5) == Step(Q6, Some(31));
    if f == AsWritten {
      assert ParseNumber(V(f), E, Q4) == Step(Q5, Some(110));
    } else {
      assert ParseNumberString(V(f), E, Q4) == Step(Q5, Some("0110"));
    }
  }

  lemma SigSecondAct(f: Fidelity)
    ensures Wf(V(f), E, Q6) && Act(V(f), E, Q6, MakeDevice(31, SigGen, SecondQualifier(f))) == Q7(f)
  {
    In2Wf();
  }

  lemma SigSecondItem(f: Fidelity)
    ensures Wf(V(f), E, Q4) && Item(V(f), E, Q4, DeviceStatement(SigGen), false) == Q7(f)
  {
    SigSecondParts(f);
    SigSecondAct(f);
    DeviceItemUnfold(V(f), E, Q4, SigGen, false);
  }

  lemma SigStatement(f: Fidelity)
    ensures Wf(V(f), E, B0) && ParseStatement(V(f), E, B0) == Q8(f)
  {
    SigStart(f);
    SigFirstItem(f);
    SigItems(f);
    SigEnd(f);
    assert Handle(V(f), E, B0, DeviceStatement(SigGen)) == Q8(f);
  }

  lemma SigItems(f: Fidelity)
    ensures Wf(V(f), E, Q3) && Items(V(f), E, Q3, DeviceStatement(SigGen)) == Q7(f)
  {
    In2Wf();
    SigSecondItem(f);
    assert GetSym(Q3) == Q4;
    assert Items(V(f), E, Q7(f), DeviceStatement(SigGen)) == Q7(f);
  }

  lemma SigEnd(f: Fidelity)
    ensures Wf(V(f), E, Q7(f)) && ParseSemicolon(V(f), E, Q7(f)) == Q8(f)
  {
    In2Wf();
  }

  /** In `SIGGEN 0110 S1, 0110 S2;` as written the first generator gets the bit string `0110` and the
      second the number 110, which has lost its leading zero and is no bit string; corrected, both get the
      bit string. */
  lemma LaterSigGenItemAsNumber()
    ensures ParseNetwork(V(AsWritten), E, In2).1.events == [
      Called(MakeDevice(30, SigGen, BitString("0110")), NoError), Called(MakeDevice(31, SigGen, Quantity(110)), NoError)]
    ensures ParseNetwork(V(Corrected), E, In2).1.events == [
      Called(MakeDevice(30, SigGen, BitString("0110")), NoError), Called(MakeDevice(31, SigGen, BitString("0110")), NoError)]
  {
    In2Wf();
    SigStatement(AsWritten);
    SigStatement(Corrected);
    assert ParseStatements(V(AsWritten), E, Q8(AsWritten)) == Q8(AsWritten);
    assert ParseStatements(V(Corrected), E, Q8(Corrected)) == Q8(Corrected);
  }
}
