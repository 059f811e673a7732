/** `create_file_string` and `get_port_string` of logsim/gui_interactive_canvas.py: the definition-file
    text the circuit editor writes for the circuit on its canvas, one section per device kind, then the
    monitors and the connections. The canvas is a snapshot of what those two methods read. */
module Serialiser {
  import opened Wrappers
  import opened Circuit
  import ScanSpec
  import ParseSpec

  /** What `create_file_string` reads of a device: its id, its kind, a switch's initial output
      (`outputs[None]`), a clock's `clock_half_period` and the number of its inputs. */
  datatype DeviceRecord = DeviceRecord(id: int, kind: DeviceKind, switchState: int, halfPeriod: int, inputCount: nat)

  /** A drawn connection: the device and port at its input end and at its output end. */
  datatype Link = Link(inputDevice: int, inputPort: Option<int>, outputDevice: int, outputPort: Option<int>)

  /** The canvas: the devices in creation order, `names.get_name_string`, the keys of
      `monitors_dictionary` in their order, and `self.connections`. */
  datatype Canvas = Canvas(devices: seq<DeviceRecord>, nameOf: int -> string,
                           monitors: seq<(int, Option<int>)>, connections: seq<Link>)

  /** `devices.find_devices(kind)`: the devices of one kind, in order. */
  function FindDevices(devices: seq<DeviceRecord>, kind: DeviceKind): (r: seq<DeviceRecord>)
    ensures |r| <= |devices|
  {
    if devices == [] then []
    else
      var last := devices[|devices| - 1];
      assert devices == devices[..|devices| - 1] + [last];
      FindDevices(devices[..|devices| - 1], kind) + (if last.kind == kind then [last] else [])
  }

  /** `str(n)` of a natural number: its decimal digits. */
  function NatString(n: nat): (s: string)
    ensures |s| >= 1
    ensures forall i :: 0 <= i < |s| ==> ScanSpec.IsDigit(s[i])
  {
    var d := ['0' + (n % 10) as char];
    if n < 10 then d else NatString(n / 10) + d
  }

  /** `str(n)` of an integer. */
  function IntString(n: int): (s: string)
    ensures |s| >= 1 && (s[0] == '-' <==> n < 0)
    ensures forall i :: 1 <= i < |s| ==> ScanSpec.IsDigit(s[i])
  {
    if n < 0 then "-" + NatString(-n) else NatString(n)
  }

  /** `get_port_string(device_id, port_id)`: the device's name, followed by a dot and the port's name when
      there is a port. */
  function PortString(nameOf: int -> string, device: int, port: Option<int>): (s: string)
    ensures |nameOf(device)| <= |s| && s[..|nameOf(device)|] == nameOf(device)
    ensures port.None? <==> s == nameOf(device)
    ensures port.Some? ==> s[|nameOf(device)|] == '.'
  {
    match port
    case None => nameOf(device)
    case Some(p) => nameOf(device) + "." + nameOf(p)
  }

  /** The keyword of a device kind's section. */
  function KindKeyword(kind: DeviceKind): string {
    match kind
    case Switch => "SWITCH"
    case Clock => "CLOCK"
    case And => "AND"
    case Nand => "NAND"
    case Or => "OR"
    case Nor => "NOR"
    case Xor => "XOR"
    case DType => "DTYPE"
    case Rc => "RC"
    case SigGen => "SIGGEN"
  }

  /** The kinds `create_file_string` has a section for, in the order it writes them. */
  const WrittenKinds: seq<DeviceKind> := [Switch, Clock, And, Nand, Or, Nor, Xor, DType]

  /** One device's item: a switch's initial state or a clock's half period or a gate's number of inputs,
      then its name; XOR and DTYPE devices by name alone. */
  function DeviceItem(nameOf: int -> string, d: DeviceRecord): (s: string)
    ensures |nameOf(d.id)| <= |s| && s[|s| - |nameOf(d.id)|..] == nameOf(d.id)
    ensures d.kind in {Xor, DType, Rc, SigGen} <==> s == nameOf(d.id)
  {
    match d.kind
    case Switch => IntString(d.switchState) + " " + nameOf(d.id)
    case Clock => IntString(d.halfPeriod) + " " + nameOf(d.id)
    case And => IntString(d.inputCount) + " " + nameOf(d.id)
    case Nand => IntString(d.inputCount) + " " + nameOf(d.id)
    case Or => IntString(d.inputCount) + " " + nameOf(d.id)
    case Nor => IntString(d.inputCount) + " " + nameOf(d.id)
    case _ => nameOf(d.id)
  }

  function DeviceItems(nameOf: int -> string, devices: seq<DeviceRecord>): (r: seq<string>)
    ensures |r| == |devices|
  {
    if devices == [] then [] else DeviceItems(nameOf, devices[..|devices| - 1]) + [DeviceItem(nameOf, devices[|devices| - 1])]
  }

  function MonitorItems(nameOf: int -> string, monitors: seq<(int, Option<int>)>): (r: seq<string>)
    ensures |r| == |monitors|
  {
    if monitors == [] then []
    else
      var m := monitors[|monitors| - 1];
      MonitorItems(nameOf, monitors[..|monitors| - 1]) + [PortString(nameOf, m.0, m.1)]
  }

  /** A connection's item: its input end, ` > `, its output end. */
  function LinkItem(nameOf: int -> string, l: Link): string {
    PortString(nameOf, l.inputDevice, l.inputPort) + " > " + PortString(nameOf, l.outputDevice, l.outputPort)
  }

  function LinkItems(nameOf: int -> string, links: seq<Link>): (r: seq<string>)
    ensures |r| == |links|
  {
    if links == [] then [] else LinkItems(nameOf, links[..|links| - 1]) + [LinkItem(nameOf, links[|links| - 1])]
  }

  /** The items of a section, `", "` between consecutive ones. */
  function Join(items: seq<string>): string {
    if |items| == 0 then ""
    else if |items| == 1 then items[0]
    else Join(items[..|items| - 1]) + ", " + items[|items| - 1]
  }

  /** Writing one more item after what has been written: a separator first, unless it is the first. */
  lemma JoinSnoc(pre: string, items: seq<string>, x: string)
    ensures pre + Join(items + [x]) == if items == [] then pre + x else pre + Join(items) + ", " + x
  {
    var all := items + [x];
    assert all[..|all| - 1] == items;
    if items == [] {
      assert all == [x];
    } else {
      assert pre + (Join(items) + ", " + x) == pre + Join(items) + ", " + x;
    }
  }

  /** One pass of a section loop: `", "` unless nothing has been written yet, then the item. */
  lemma JoinStep(pre: string, s: string, items: seq<string>, x: string)
    requires s == pre + Join(items)
    ensures (if items == [] then s + x else s + ", " + x) == pre + Join(items + [x])
  {
    JoinSnoc(pre, items, x);
  }

  /** A section as the loops write it: the keyword, a space, the items, `";\n"`. */
  function Body(keyword: string, items: seq<string>): string {
    keyword + " " + Join(items) + ";\n"
  }

  /** A section guarded by its own items: nothing when there are none. */
  function Section(keyword: string, items: seq<string>): string {
    if items == [] then "" else Body(keyword, items)
  }

  function DeviceSection(c: Canvas, kind: DeviceKind): string {
    Section(KindKeyword(kind), DeviceItems(c.nameOf, FindDevices(c.devices, kind)))
  }

  /** The NOR section. As written it is guarded by the AND gates (`if and_ids:`); corrected, by the NOR
      gates like every other section. */
  function NorSection(f: ParseSpec.Fidelity, c: Canvas): (s: string)
    ensures f == ParseSpec.Corrected ==> s == DeviceSection(c, Nor)
    ensures FindDevices(c.devices, Nor) != [] && FindDevices(c.devices, And) == [] ==> (s == "" <==> f == ParseSpec.AsWritten)
  {
    var guard := if f == ParseSpec.AsWritten then FindDevices(c.devices, And) else FindDevices(c.devices, Nor);
    if guard == [] then "" else Body("NOR", DeviceItems(c.nameOf, FindDevices(c.devices, Nor)))
  }

  /** The whole definition file. */
  function FileString(f: ParseSpec.Fidelity, c: Canvas): string {
    DeviceSection(c, Switch) + DeviceSection(c, Clock) + DeviceSection(c, And) + DeviceSection(c, Nand)
    + DeviceSection(c, Or) + NorSection(f, c) + DeviceSection(c, Xor) + DeviceSection(c, DType)
    + Section("MONITOR", MonitorItems(c.nameOf, c.monitors)) + Section("CONNECT", LinkItems(c.nameOf, c.connections))
  }

  /** The loop over one kind's devices: the keyword, each item with `", "` before all but the first, and
      `";\n"`. */
  method WriteDevices(c: Canvas, keyword: string, devices: seq<DeviceRecord>) returns (s: string)
    ensures s == Body(keyword, DeviceItems(c.nameOf, devices))
  {
    s := keyword + " ";
    for i := 0 to |devices|
      invariant s == keyword + " " + Join(DeviceItems(c.nameOf, devices[..i]))
    {
      var item := DeviceItem(c.nameOf, devices[i]);
      DeviceItemsSnoc(c.nameOf, devices, i);
      JoinStep(keyword + " ", s, DeviceItems(c.nameOf, devices[..i]), item);
      if i > 0 {
        s := s + ", ";
      }
      s := s + item;
    }
    assert devices[..|devices|] == devices;
    s := s + ";\n";
  }

  lemma DeviceItemsSnoc(nameOf: int -> string, devices: seq<DeviceRecord>, k: nat)
    requires k < |devices|
    ensures DeviceItems(nameOf, devices[..k + 1]) == DeviceItems(nameOf, devices[..k]) + [DeviceItem(nameOf, devices[k])]
  {
    assert devices[..k + 1][..k] == devices[..k];
  }

  lemma MonitorItemsSnoc(nameOf: int -> string, monitors: seq<(int, Option<int>)>, k: nat)
    requires k < |monitors|
    ensures MonitorItems(nameOf, monitors[..k + 1])
            == MonitorItems(nameOf, monitors[..k]) + [PortString(nameOf, monitors[k].0, monitors[k].1)]
  {
    assert monitors[..k + 1][..k] == monitors[..k];
  }

  /** The MONITOR loop, with its hand-kept counter `i`. */
  method WriteMonitors(c: Canvas) returns (s: string)
    ensures s == Body("MONITOR", MonitorItems(c.nameOf, c.monitors))
  {
    s := "MONITOR ";
    var i := 0;
    for k := 0 to |c.monitors|
      invariant i == k
      invariant s == "MONITOR " + Join(MonitorItems(c.nameOf, c.monitors[..k]))
    {
      var device := c.monitors[k].0;
      var port := c.monitors[k].1;
      var item := PortString(c.nameOf, device, port);
      MonitorItemsSnoc(c.nameOf, c.monitors, k);
      JoinStep("MONITOR ", s, MonitorItems(c.nameOf, c.monitors[..k]), item);
      if i > 0 {
        s := s + ", ";
      }
      s := s + item;
      i := i + 1;
    }
    assert c.monitors[..|c.monitors|] == c.monitors;
    s := s + ";\n";
  }

  lemma LinkItemsSnoc(nameOf: int -> string, links: seq<Link>, k: nat)
    requires k < |links|
    ensures LinkItems(nameOf, links[..k + 1]) == LinkItems(nameOf, links[..k]) + [LinkItem(nameOf, links[k])]
  {
    assert links[..k + 1][..k] == links[..k];
  }

  /** The CONNECT loop. */
  method WriteConnections(c: Canvas) returns (s: string)
    ensures s == Body("CONNECT", LinkItems(c.nameOf, c.connections))
  {
    s := "CONNECT ";
    for i := 0 to |c.connections|
      invariant s == "CONNECT " + Join(LinkItems(c.nameOf, c.connections[..i]))
    {
      var l := c.connections[i];
      var item := PortString(c.nameOf, l.inputDevice, l.inputPort) + " > " + PortString(c.nameOf, l.outputDevice, l.outputPort);
      assert item == LinkItem(c.nameOf, l);
      LinkItemsSnoc(c.nameOf, c.connections, i);
      JoinStep("CONNECT ", s, LinkItems(c.nameOf, c.connections[..i]), item);
      if i > 0 {
        s := s + ", ";
      }
      s := s + item;
    }
    assert c.connections[..|c.connections|] == c.connections;
    s := s + ";\n";
  }

  /** One of the device blocks of `create_file_string`: when there are devices of the kind, their section
      is appended. */
  method AddDeviceSection(c: Canvas, kind: DeviceKind, fileString: string) returns (r: string)
    ensures r == fileString + DeviceSection(c, kind)
  {
    r := fileString;
    var ids := FindDevices(c.devices, kind);
    if ids != [] {
      var section := WriteDevices(c, KindKeyword(kind), ids);
      r := r + section;
    }
  }

  /** The NOR block, with its guard. */
  method AddNorSection(f: ParseSpec.Fidelity, c: Canvas, fileString: string) returns (r: string)
    ensures r == fileString + NorSection(f, c)
  {
    r := fileString;
    var andIds := FindDevices(c.devices, And);
    var norIds := FindDevices(c.devices, Nor);
    if (if f == ParseSpec.AsWritten then andIds else norIds) != [] {
      var section := WriteDevices(c, "NOR", norIds);
      r := r + section;
    }
  }

  /** The MONITOR block. */
  method AddMonitorSection(c: Canvas, fileString: string) returns (r: string)
    ensures r == fileString + Section("MONITOR", MonitorItems(c.nameOf, c.monitors))
  {
    r := fileString;
    if c.monitors != [] {
      var section := WriteMonitors(c);
      r := r + section;
    }
  }

  /** The CONNECT block. */
  method AddConnectSection(c: Canvas, fileString: string) returns (r: string)
    ensures r == fileString + Section("CONNECT", LinkItems(c.nameOf, c.connections))
  {
    r := fileString;
    if c.connections != [] {
      var section := WriteConnections(c);
      r := r + section;
    }
  }

  /** `create_file_string()` */
  method CreateFileString(f: ParseSpec.Fidelity, c: Canvas) returns (fileString: string)
    ensures fileString == FileString(f, c)
  {
    fileString := "";
    fileString := AddDeviceSection(c, Switch, fileString);
    assert fileString == DeviceSection(c, Switch);
    fileString := AddDeviceSection(c, Clock, fileString);
    fileString := AddDeviceSection(c, And, fileString);
    fileString := AddDeviceSection(c, Nand, fileString);
    fileString := AddDeviceSection(c, Or, fileString);
    fileString := AddNorSection(f, c, fileString);
    fileString := AddDeviceSection(c, Xor, fileString);
    fileString := AddDeviceSection(c, DType, fileString);
    fileString := AddMonitorSection(c, fileString);
    fileString := AddConnectSection(c, fileString);
  }
}
