/** Command sending and response interpretation: src/modem/handlers.rs. */
module Handlers {
  import opened Text
  import opened Types
  import opened Parsers

  /** The AT command that starts a request, without its line end. */
  function AtCommand(request: ModemRequest): string {
    match request
    case SendSMS(len, _) => "AT+CMGS=" + Decimal(len)
    case GetNetworkStatus => "AT+CREG?"
    case GetSignalStrength => "AT+CSQ"
    case GetNetworkOperator => "AT+COPS?"
    case GetServiceProvider => "AT+CSPN?"
    case GetBatteryLevel => "AT+CBC"
    case GetGNSSStatus => "AT+CGPSSTATUS?"
    case GetGNSSLocation => "AT+CGNSINF"
  }

  /** `command_sender`: what is written, and what the command then waits for. */
  function CommandSender(request: ModemRequest): (WorkerEvent, CommandState) {
    (WriteCommand(AtCommand(request) + "\r\n"),
     if request.SendSMS? then WaitingForPrompt else WaitingForData)
  }

  /** `prompt_handler`: the PDU with its terminator, for a request that has one. */
  function PromptHandler(request: ModemRequest): Option<(WorkerEvent, CommandState)> {
    match request
    case SendSMS(_, pdu) => Some((WriteCommand(pdu + [26 as char]), WaitingForOk))
    case _ => None
  }

  /** `get_real_number`: one carrier's alphanumeric sender stands for a numeric one. */
  function GetRealNumber(phoneNumber: string): string {
    if phoneNumber == "ASDAmobile" then "2732" else phoneNumber
  }

  /** What handling an unsolicited message emits: messages to the program, or a worker event. */
  datatype Effect = Emit(message: ModemIncomingMessage) | Raise(event: WorkerEvent) | Nothing

  /** `handle_unsolicited_message`; content that cannot be decoded emits nothing. */
  function HandleUnsolicitedMessage(kind: UnsolicitedMessageKind, content: string, decoder: Decoder): Effect {
    match kind
    case IncomingSMS =>
      (match decoder.sms(content)
       case Some(sms) => Emit(SmsReceived(sms.(phoneNumber := GetRealNumber(sms.phoneNumber))))
       case None => Nothing)
    case DeliveryReport =>
      (match decoder.report(content)
       case Some(report) => Emit(ReportReceived(report.(phoneNumber := GetRealNumber(report.phoneNumber))))
       case None => Nothing)
    case NetworkStatusChange => Emit(NetworkStatusChanged(0))
    case PoweringDown => Raise(SetStatus(ShuttingDown))
    case GNSSPositionReport =>
      match ParseCgnsinfResponse(content, true, decoder)
      case Ok(position) => Emit(PositionReceived(position))
      case Err(_) => Nothing
  }

  /** `command_responder`: the reply that a finished response buffer stands for. */
  function CommandResponder(request: ModemRequest, response: string, decoder: Decoder): Result<ModemResponse> {
    if !EndsWith(TrimEnd(response), "OK") then Err("Modem response does not end with OK")
    else InterpretResponse(request, response, decoder)
  }

  function InterpretResponse(request: ModemRequest, response: string, decoder: Decoder): Result<ModemResponse> {
    match request
    case SendSMS(_, _) =>
      (match ParseCmgsResult(response)
       case Ok(reference) => Ok(SendResult(reference))
       case Err(e) => Err(e))
    case GetNetworkStatus =>
      (match ParseCregResponse(response)
       case Ok((registration, technology)) => Ok(NetworkStatus(registration, technology))
       case Err(e) => Err(e))
    case GetSignalStrength =>
      (match ParseCsqResponse(response)
       case Ok((rssi, ber)) => Ok(SignalStrength(rssi, ber))
       case Err(e) => Err(e))
    case GetNetworkOperator =>
      (match ParseCopsResponse(response)
       case Ok((status, format, operator)) => Ok(NetworkOperator(status, format, operator))
       case Err(e) => Err(e))
    case GetServiceProvider =>
      (match ParseCspnResponse(response)
       case Ok(name) => Ok(ServiceProvider(name))
       case Err(e) => Err(e))
    case GetBatteryLevel =>
      (match ParseCbcResponse(response)
       case Ok((status, charge, voltage)) => Ok(BatteryLevel(status, charge, voltage))
       case Err(e) => Err(e))
    case GetGNSSStatus =>
      (match ParseCgpsstatusResponse(response, decoder)
       case Ok(fix) => Ok(GNSSStatus(fix))
       case Err(e) => Err(e))
    case GetGNSSLocation =>
      match ParseCgnsinfResponse(response, false, decoder)
      case Ok(position) => Ok(GNSSLocation(position))
      case Err(e) => Err(e)
  }

  /** The reply a command's caller may see: an error, or the variant that answers the request. */
  predicate Fits(request: ModemRequest, response: ModemResponse) {
    response.Error? ||
    (match request
     case SendSMS(_, _) => response.SendResult?
     case GetNetworkStatus => response.NetworkStatus?
     case GetSignalStrength => response.SignalStrength?
     case GetNetworkOperator => response.NetworkOperator?
     case GetServiceProvider => response.ServiceProvider?
     case GetBatteryLevel => response.BatteryLevel?
     case GetGNSSStatus => response.GNSSStatus?
     case GetGNSSLocation => response.GNSSLocation?)
  }

  /** The reply of `process_command` to a finished response. */
  function Answer(request: ModemRequest, response: string, decoder: Decoder): (r: ModemResponse)
    ensures Fits(request, r)
  {
    match CommandResponder(request, response, decoder)
    case Ok(answer) => answer
    case Err(e) => Error(e)
  }
}
