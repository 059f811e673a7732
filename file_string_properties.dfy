/** What the definition file written by the circuit editor looks like, and the NOR-section defect. */
module SerialiserProperties {
  import opened Wrappers
  import opened Circuit
  import opened Serialiser
  import ScanSpec
  import ParseSpec

  /** The numbers the editor writes are read back by the scanner as the same numbers. */
  lemma {:induction false} NatStringReadsBack(n: nat)
    ensures ScanSpec.DigitsValue(NatString(n)) == n
  {
    var s := NatString(n);
    if n >= 10 {
      NatStringReadsBack(n / 10);
      assert s[..|s| - 1] == NatString(n / 10);
    }
  }

  function Concat(parts: seq<string>): string {
    if parts == [] then "" else Concat(parts[..|parts| - 1]) + parts[|parts| - 1]
  }

  /** The parts of a joined list: `", "` before every item except the first. */
  function Separated(items: seq<string>): (r: seq<string>)
    ensures |r| == |items|
  {
    seq(|items|, i requires 0 <= i < |items| => (if i == 0 then "" else ", ") + items[i])
  }

  /** `Join` writes each item after its separator, in order. */
  lemma {:induction false} JoinIsSeparated(items: seq<string>)
    ensures Join(items) == Concat(Separated(items))
    decreases |items|
  {
    if |items| > 0 {
      var n := |items|;
      var front := items[..n - 1];
      JoinIsSeparated(front);
      assert Separated(items)[..n - 1] == Separated(front);
      if n == 1 {
        assert Concat(Separated(front)) == "";
      }
    }
  }

  /** The items of every section are in the order of their devices, monitors or connections. */
  lemma {:induction false} LinkItemsInOrder(c: Canvas, links: seq<Link>, i: nat)
    requires i < |links|
    ensures LinkItems(c.nameOf, links)[i] == LinkItem(c.nameOf, links[i])
    decreases |links|
  {
    if i < |links| - 1 {
      LinkItemsInOrder(c, links[..|links| - 1], i);
    }
  }

  lemma {:induction false} MonitorItemsInOrder(c: Canvas, monitors: seq<(int, Option<int>)>, i: nat)
    requires i < |monitors|
    ensures MonitorItems(c.nameOf, monitors)[i] == PortString(c.nameOf, monitors[i].0, monitors[i].1)
    decreases |monitors|
  {
    if i < |monitors| - 1 {
      MonitorItemsInOrder(c, monitors[..|monitors| - 1], i);
    }
  }

  lemma {:induction false} DeviceItemsInOrder(c: Canvas, devices: seq<DeviceRecord>, i: nat)
    requires i < |devices|
    ensures DeviceItems(c.nameOf, devices)[i] == DeviceItem(c.nameOf, devices[i])
    decreases |devices|
  {
    if i < |devices| - 1 {
      DeviceItemsInOrder(c, devices[..|devices| - 1], i);
    }
  }

  /** `find_devices` over two lists is `find_devices` over each, in order. */
  lemma {:induction false} FindDevicesAppend(a: seq<DeviceRecord>, b: seq<DeviceRecord>, kind: DeviceKind)
    ensures FindDevices(a + b, kind) == FindDevices(a, kind) + FindDevices(b, kind)
    decreases |b|
  {
    if b == [] {
      assert a + b == a;
    } else {
      var b0 := b[..|b| - 1];
      FindDevicesAppend(a, b0, kind);
      assert (a + b)[..|a + b| - 1] == a + b0;
      assert b[..|b| - 1] == b0;
    }
  }

  /** Inserting a device leaves the devices of every other kind as they were. */
  lemma FindDevicesInsert(devices: seq<DeviceRecord>, d: DeviceRecord, i: nat, kind: DeviceKind)
    requires d.kind != kind && i <= |devices|
    ensures FindDevices(devices[..i] + [d] + devices[i..], kind) == FindDevices(devices, kind)
  {
    assert devices == devices[..i] + devices[i..];
    FindDevicesAppend(devices[..i] + [d], devices[i..], kind);
    FindDevicesAppend(devices[..i], [d], kind);
    FindDevicesAppend(devices[..i], devices[i..], kind);
    assert FindDevices([d], kind) == [] by {
      assert [d][..0] == [];
    }
  }

  /** The file depends on the devices only through the lists `find_devices` gives for the kinds written. */
  lemma FileStringByKinds(f: ParseSpec.Fidelity, c: Canvas, c2: Canvas)
    requires c2.nameOf == c.nameOf && c2.monitors == c.monitors && c2.connections == c.connections
    requires forall k :: k in WrittenKinds ==> FindDevices(c2.devices, k) == FindDevices(c.devices, k)
    ensures FileString(f, c2) == FileString(f, c)
  {
    forall k | k in WrittenKinds ensures DeviceSection(c2, k) == DeviceSection(c, k) {
    }
    assert And in WrittenKinds && Nor in WrittenKinds;
    assert NorSection(f, c2) == NorSection(f, c);
  }

  /** RC and SIGGEN devices never reach the file: a circuit with one more of them, anywhere among its
      devices, is written exactly as the circuit without it. */
  lemma RcAndSigGenNotWritten(f: ParseSpec.Fidelity, c: Canvas, d: DeviceRecord, i: nat)
    requires d.kind == Rc || d.kind == SigGen
    requires i <= |c.devices|
    ensures FileString(f, c.(devices := c.devices[..i] + [d] + c.devices[i..])) == FileString(f, c)
  {
    var c2 := c.(devices := c.devices[..i] + [d] + c.devices[i..]);
    forall k | k in WrittenKinds
      ensures FindDevices(c2.devices, k) == FindDevices(c.devices, k)
    {
      FindDevicesInsert(c.devices, d, i, k);
    }
    FileStringByKinds(f, c, c2);
  }

  /** When every device has one kind, the other kinds have none. */
  lemma {:induction false} FindDevicesOneKind(devices: seq<DeviceRecord>, kind: DeviceKind, other: DeviceKind)
    requires forall d :: d in devices ==> d.kind == kind
    ensures FindDevices(devices, kind) == devices
    ensures other != kind ==> FindDevices(devices, other) == []
    decreases |devices|
  {
    if devices != [] {
      FindDevicesOneKind(devices[..|devices| - 1], kind, other);
      assert devices == devices[..|devices| - 1] + [devices[|devices| - 1]];
    }
  }

  /** A circuit of NOR gates only, with no monitors and no connections. */
  predicate NorsOnly(c: Canvas) {
    && c.devices != []
    && (forall d :: d in c.devices ==> d.kind == Nor)
    && c.monitors == [] && c.connections == []
  }

  /** As written (the NOR block is guarded by `and_ids`), a circuit of NOR gates alone is written as an
      empty file. */
  lemma NorsOnlyLostAsWritten(c: Canvas)
    requires NorsOnly(c)
    ensures FileString(ParseSpec.AsWritten, c) == ""
  {
    forall k | k != Nor ensures FindDevices(c.devices, k) == [] {
      FindDevicesOneKind(c.devices, Nor, k);
    }
  }

  /** Corrected, that circuit is written as its NOR section: every gate with its number of inputs and
      its name. */
  lemma NorsOnlyWritten(c: Canvas)
    requires NorsOnly(c)
    ensures FileString(ParseSpec.Corrected, c) == Body("NOR", DeviceItems(c.nameOf, c.devices))
  {
    OtherSectionsEmpty(c);
    NorsOnlySections(c);
    OneSectionLeft(DeviceSection(c, Switch), DeviceSection(c, Clock), DeviceSection(c, And), DeviceSection(c, Nand),
                   DeviceSection(c, Or), NorSection(ParseSpec.Corrected, c), DeviceSection(c, Xor),
                   DeviceSection(c, DType), Section("MONITOR", MonitorItems(c.nameOf, c.monitors)),
                   Section("CONNECT", LinkItems(c.nameOf, c.connections)));
  }

  /** Ten sections of which all but the sixth are empty make up the sixth. */
  lemma OneSectionLeft(s1: string, s2: string, s3: string, s4: string, s5: string, s6: string, s7: string,
                       s8: string, s9: string, s10: string)
    requires s1 == s2 == s3 == s4 == s5 == s7 == s8 == s9 == s10 == ""
    ensures s1 + s2 + s3 + s4 + s5 + s6 + s7 + s8 + s9 + s10 == s6
  {
  }

  /** In a circuit of NOR gates alone, the NOR section holds every device and nothing is monitored or
      connected. */
  lemma NorsOnlySections(c: Canvas)
    requires NorsOnly(c)
    ensures NorSection(ParseSpec.Corrected, c) == Body("NOR", DeviceItems(c.nameOf, c.devices))
    ensures Section("MONITOR", MonitorItems(c.nameOf, c.monitors)) == ""
    ensures Section("CONNECT", LinkItems(c.nameOf, c.connections)) == ""
  {
    FindDevicesOneKind(c.devices, Nor, Nor);
  }

  /** In a circuit of NOR gates alone, the sections of the other kinds are empty. */
  lemma OtherSectionsEmpty(c: Canvas)
    requires NorsOnly(c)
    ensures DeviceSection(c, Switch) == "" && DeviceSection(c, Clock) == "" && DeviceSection(c, And) == ""
    ensures DeviceSection(c, Nand) == "" && DeviceSection(c, Or) == "" && DeviceSection(c, Xor) == ""
    ensures DeviceSection(c, DType) == ""
  {
    forall k | k != Nor ensures FindDevices(c.devices, k) == [] {
      FindDevicesOneKind(c.devices, Nor, k);
    }
  }

  /** As written, AND gates without NOR gates produce an empty `NOR ;` section; corrected, nothing. */
  lemma AndsWithoutNors(c: Canvas)
    requires FindDevices(c.devices, And) != [] && FindDevices(c.devices, Nor) == []
    ensures NorSection(ParseSpec.AsWritten, c) == "NOR ;\n"
    ensures NorSection(ParseSpec.Corrected, c) == ""
  {
  }

  /** Corrected, the NOR section is there exactly when there are NOR gates; whenever AND and NOR gates are
      both present or both absent, the two versions write the same file. */
  lemma NorSectionCorrected(c: Canvas)
    ensures NorSection(ParseSpec.Corrected, c) == DeviceSection(c, Nor)
    ensures (FindDevices(c.devices, And) == [] <==> FindDevices(c.devices, Nor) == [])
            ==> FileString(ParseSpec.AsWritten, c) == FileString(ParseSpec.Corrected, c)
  {
    assert FindDevices(c.devices, Nor) == [] <==> DeviceItems(c.nameOf, FindDevices(c.devices, Nor)) == [];
  }

  /** The position of the first dot. */
  function FirstDot(s: string): (i: nat)
    requires '.' in s
    ensures i < |s| && s[i] == '.' && '.' !in s[..i]
  {
    if s[0] == '.' then 0
    else
      var i := 1 + FirstDot(s[1..]);
      assert s[..i] == [s[0]] + s[1..][..i - 1];
      i
  }

  /** Reading a port reference back: the device name before the first dot, the port name after it. */
  function SplitPort(s: string): (string, Option<string>) {
    if '.' in s then (s[..FirstDot(s)], Some(s[FirstDot(s) + 1..])) else (s, None)
  }

  /** Names without dots are read back from `get_port_string`'s text: the device's name, and the port's
      name exactly when there is a port. */
  lemma PortStringSplits(c: Canvas, device: int, port: Option<int>)
    requires '.' !in c.nameOf(device)
    ensures SplitPort(PortString(c.nameOf, device, port))
            == (c.nameOf(device), if port.Some? then Some(c.nameOf(port.value)) else None)
  {
    var a := c.nameOf(device);
    if port.Some? {
      var s := PortString(c.nameOf, device, port);
      assert s[|a|] == '.';
      assert s[..|a|] == a;
      assert FirstDot(s) == |a|;
      assert s[|a| + 1..] == c.nameOf(port.value);
    }
  }

  /** Every section starts with a reserved word of the scanner, one that starts the statement declaring the
      same thing. */
  lemma SectionKeywordsReserved()
    ensures forall i :: 0 <= i < |WrittenKinds| ==> KindKeyword(WrittenKinds[i]) in ScanSpec.Keywords
    ensures forall i :: 0 <= i < |ScanSpec.Keywords| ==>
              (ScanSpec.KeywordStatements[i].DeviceStatement? ==>
                 KindKeyword(ScanSpec.KeywordStatements[i].kind) == ScanSpec.Keywords[i])
    ensures "MONITOR" in ScanSpec.Keywords && "CONNECT" in ScanSpec.Keywords
  {
  }
}
