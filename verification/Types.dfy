/** The vocabulary of the modem worker: src/modem/types.rs and src/modem/commands.rs. */
module Types {
  import opened Text

  type u8 = x: int | 0 <= x < 256
  type i32 = x: int | -0x8000_0000 <= x < 0x8000_0000

  datatype Result<+T> = Ok(value: T) | Err(error: string)

  datatype ModemRequest =
    | SendSMS(len: nat, pdu: string)
    | GetNetworkStatus
    | GetSignalStrength
    | GetNetworkOperator
    | GetServiceProvider
    | GetBatteryLevel
    | GetGNSSStatus
    | GetGNSSLocation
  {
    function ExpectedResponsePrefix(): string {
      match this
      case SendSMS(_, _) => "+CMGS:"
      case GetNetworkStatus => "+CREG:"
      case GetSignalStrength => "+CSQ:"
      case GetNetworkOperator => "+COPS:"
      case GetServiceProvider => "+CSPN:"
      case GetBatteryLevel => "+CBC:"
      case GetGNSSStatus => "+CGPSSTATUS:"
      case GetGNSSLocation => "+CGNSINF:"
    }

    /** In seconds. */
    function DefaultTimeout(): nat {
      if SendSMS? then 30 else 5
    }
  }

  /** A fix status or position report is carried as the text it was decoded from. */
  datatype ModemResponse =
    | SendResult(reference: u8)
    | NetworkStatus(registration: u8, technology: u8)
    | SignalStrength(rssi: i32, ber: i32)
    | NetworkOperator(status: u8, format: u8, operator: string)
    | ServiceProvider(name: string)
    | BatteryLevel(batteryStatus: u8, charge: u8, voltage: real)
    | GNSSStatus(fix: string)
    | GNSSLocation(position: string)
    | Error(message: string)

  datatype ModemStatus = Startup | Online | ShuttingDown | Offline

  datatype UnsolicitedMessageKind =
    | IncomingSMS
    | DeliveryReport
    | NetworkStatusChange
    | PoweringDown
    | GNSSPositionReport
  {
    /** Whether the notification has its data on a second line. */
    predicate HasNextLine() {
      !PoweringDown? && !GNSSPositionReport?
    }
  }

  predicate IsPowerDownNotice(header: string) {
    header == "NORMAL POWER DOWN" || header == "POWER DOWN" || header == "SHUTDOWN" || header == "POWERING DOWN"
  }

  /** `UnsolicitedMessageKind::from_header`. */
  function FromHeader(header: string): Option<UnsolicitedMessageKind> {
    if StartsWith(header, "+CMT") then Some(IncomingSMS)
    else if StartsWith(header, "+CDS") then Some(DeliveryReport)
    else if StartsWith(header, "+CGREG:") then Some(NetworkStatusChange)
    else if StartsWith(header, "+UGNSINF") then Some(GNSSPositionReport)
    else if IsPowerDownNotice(header) then Some(PoweringDown)
    else None
  }

  datatype ModemEvent =
    | UnsolicitedMessage(kind: UnsolicitedMessageKind, header: string)
    | CommandResponse(content: string)
    | Data(content: string)
    | PromptReceived(content: string)

  datatype MultipartHeader = MultipartHeader(reference: u8, total: u8, index: u8)

  datatype IncomingSms = IncomingSms(phoneNumber: string, header: Option<MultipartHeader>, content: string)

  datatype PartialReport = PartialReport(status: u8, phoneNumber: string, reference: u8)

  /** What the worker sends to the rest of the program over `main_tx`. */
  datatype ModemIncomingMessage =
    | SmsReceived(sms: IncomingSms)
    | ReportReceived(report: PartialReport)
    | ModemStatusUpdate(previous: ModemStatus, current: ModemStatus)
    | NetworkStatusChanged(code: u8)
    | PositionReceived(position: string)

  datatype WorkerEvent =
    | SetStatus(status: ModemStatus)
    | WriteCommand(data: string)

  /** The decoders of the PDU and GNSS crates, whose workings are not modelled. */
  datatype Decoder = Decoder(
    sms: string -> Option<IncomingSms>,
    report: string -> Option<PartialReport>,
    fixStatus: string -> bool,
    position: seq<string> -> bool)

  datatype CommandState = WaitingForOk | WaitingForPrompt | WaitingForData {
    predicate IsComplete(content: string) {
      match this
      case WaitingForOk =>
        content == "OK" || content == "ERROR"
        || StartsWith(content, "+CME ERROR:") || StartsWith(content, "+CMS ERROR:")
      case WaitingForPrompt => false
      case WaitingForData =>
        StartsWith(content, "+CMGS:") || content == "OK" || content == "ERROR"
    }
  }

  datatype CommandContext = CommandContext(sequence: nat, state: CommandState, responseBuffer: string)

  /**
   A command on its way to the modem. `channel` names its one-shot reply channel, which no other
   command shares; `open` says that its sending half has not been used.
   */
  datatype OutgoingCommand = OutgoingCommand(
    sequence: nat, request: ModemRequest, timeout: Option<nat>, channel: nat, open: bool)
  {
    function RequestTimeout(): nat {
      match timeout
      case Some(seconds) => seconds
      case None => request.DefaultTimeout()
    }
  }
}
