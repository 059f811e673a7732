/** The parser's collaborators (the Devices, Network and Monitors objects), seen only through the calls
    the parser makes and the result codes they return. Their implementation is not part of this model:
    a device is known only by its input and output port sets, and every result code comes from an oracle. */
module Circuit {
  import opened Wrappers

  /** The flat error taxonomy: the parser's five syntax errors and the semantic codes of the devices, network
      and monitors objects (plus their common "no error"). */
  datatype ErrorCode =
    | NoError
    | NameExpected | SemicolonExpected | KeywordExpected | NumberExpected | ArrowExpected
    | DevicePresent | BadDevice | NoQualifier | InvalidQualifier | QualifierPresent
    | DeviceAbsent | PortAbsent | InputToInput | OutputToOutput | InputConnected
    | NotOutput | MonitorPresent

  datatype DeviceKind = And | Nand | Or | Nor | Xor | DType | Switch | Clock | Rc | SigGen

  /** What the parser passes as a device's configuration: nothing (XOR, DTYPE), a number, or the digit
      string of a number as written (SIGGEN). */
  datatype Qualifier = Unqualified | Quantity(n: int) | BitString(digits: string)

  /** A device as `get_device` shows it to the parser: its input port ids and its output port ids, where
      `None` stands for the single unnamed output of gates, switches and clocks. */
  datatype Ports = Ports(inputs: set<int>, outputs: set<Option<int>>)

  /** One call into a collaborator: `make_device(id, kind, qualifier)`,
      `make_connection(input device, input port, output device, output port)` (the two nodes of a CONNECT
      item in the order written: the input first) or `make_monitor(device, port)`. */
  datatype Call =
    | MakeDevice(device: int, kind: DeviceKind, qualifier: Qualifier)
    | MakeConnection(inputDevice: int, inputPort: Option<int>, outputDevice: int, outputPort: Option<int>)
    | MakeMonitor(device: int, port: Option<int>)

  /** The statement a reserved word starts. */
  datatype Statement = ConnectStatement | MonitorStatement | DeviceStatement(kind: DeviceKind)

  /** The parser's environment: the name ids of the reserved words with the statement each one starts,
      the result code each collaborator answers given the calls it has already received, and the ports a
      successfully created device gets. */
  datatype Env = Env(
    keywords: map<int, Statement>,
    respond: (seq<Call>, Call) -> ErrorCode,
    portsOf: (int, DeviceKind, Qualifier) -> Ports)
}
