# Verified model of the SMS server's modem stack

The modem stack turns the bytes of a serial line into replies to AT commands and into incoming
messages; two services behind it put multipart messages together and match delivery reports to the
messages sent. This project models four linked pieces of it in Dafny and proves, over all byte
streams, all ways of cutting them into reads, and all runs, what they promise, each piece alone and
then the pieces composed. `dafny verify dfyconfig.toml` checks everything.

Each piece that changes state in place has two forms: functions on values, about which the theorems
are proved, and a class in the form of the source, whose methods are proved to carry out those
functions.

| files | content |
|---|---|
| `Text`, `Parsers` | string operations of the source's language, reply parsers and their round trips |
| `Framing`, `Chunking`, `LineBuffer` | the tokenizer that defines the line events, its independence of chunking, and the in-place scanner |
| `Types`, `Handlers`, `StateMachine`, `ModemStateMachine` | the single-flight command protocol |
| `Interleaving`, `Provenance` | unsolicited messages between the lines of a response; where a response buffer comes from |
| `Worker`, `WorkerRuns`, `ModemWorker`, `History` | the worker loop as steps, and what every run keeps |
| `EndToEnd`, `Queries`, `Conversation`, `Shutdown`, `StepEffects` | from bytes to replies, for the state machine and for the whole worker; what a power-down notice in between does, what each step of the worker does, and what a timeout is good for |
| `Multipart`, `Reception`, `Receiver`, `Inbox`, `InboxRuns` | assembly of multipart messages, the keyed map of groups and its cleanup, and from bytes to stored messages and completed deliveries, over whole runs of the worker |
| `Deliveries`, `Sender` | tables of messages and delivery reports; sending in parts over any worker run |

A `Machine` and a worker `State` carry ledgers of everything emitted: messages to the program, replies
on one-shot channels, and channels dropped unused. `gone` holds the channels whose receiver has been
dropped; a reply on such a channel counts as the command's one reply. A run is any list of steps; a step
whose guard does not hold when its turn comes is passed over, so a theorem about all lists of steps is a
theorem about all runs.

What the modem writes is a list of pieces (`EndToEnd.Piece`): lines, blank ones among them, each closed by
one line end or more, CR or LF, with any further ones in front, and prompts with their spaces. It is read
as a list of blocks (`Interleaving.Block`): plain lines and prompts, and whole unsolicited messages,
trimmed. The theorems from bytes are about all pieces that are read as the blocks in question, from
any point of the line ends at their head on, with any beginning of a further line behind them.

Where the code and its documentation differ the model follows the code:

- Concatenated messages, 3GPP TS 23.040, section 9.2.3.24.1: a part with sequence number 0 is to be
  ignored; `src/sms/multipart.rs:34` puts it in the first slot (`Multipart.Slot`).
- `src/modem/buffer.rs:50` speaks of a prompt "after whitespace" and line 55 of "trailing whitespace";
  the code takes a prompt at a line start only, and with it spaces only.
- `src/modem/buffer.rs:85-87` aligns truncation with a newline; at that point the buffer holds none, so
  the fallback is always taken (`Buffer.LineBuffer.ProcessData`).

Six properties hold under a condition only. For each the exact condition is proved, with an input that
fails without it:

- Reading a stream in pieces gives the events of reading it whole unless a cut falls directly behind a
  `>`: the spaces that follow are then not counted to the prompt. `Chunking.TwoReads` says for one
  boundary exactly when this shows, `Chunking.ChunkInvariance` which streams are read alike however they
  are cut, and `Chunking.CutsThatShow` gives inputs.
- A refused submission is answered with an error unless the refusal ends in OK and a `+CMGS:` line came
  before it (`Queries.SubmissionRefused`, `Queries.RefusalTaken`).
- A submission that is told a reference and OK is answered with that reference unless a `+CMGS:` line
  without it was heard before: left over, unfinished, in the line buffer when the submission began, or
  early (`EndToEnd.ReferenceReplied`, `EndToEnd.StaleReferenceWins`).
- A query with a successful response is answered with the values of that response unless the line so left
  over completes a query (OK, ERROR or `+CMGS:`) or carries other values (`Queries.QueryAnswered`,
  `Queries.HeardAnswer`); `Queries.FinalLeftOver` and `Queries.StaleValuesWin` give inputs, and
  `Conversation.LateAnswerIsLeftOver` a run from the start that leaves such an OK.
- A command is answered from all its own lines unless the line left over is a header whose payload is
  still due: then the first line is taken for that payload, and if there is none before the prompt, or a
  notice comes first, the command is lost without a reply (`EndToEnd.SubmissionBehindHeader`,
  `Queries.QueryBehindHeader`), for good (`Conversation.LostForGood`).
- A part finds its group whatever sweeps come between if and only if no part of an unfinished group is
  late (`Reception.IsolationIffTimely`, `Reception.LatePartIsLost`).

## Model

| member | source | states |
|---|---|---|
| Framing.TokenizeLossless | src/modem/buffer.rs:26-80 | bodies, line ends, prompt runs and the remainder, put together, are the input: no byte is lost, invented or moved |
| Framing.TokenizeShape | src/modem/buffer.rs:31-78 | bodies hold no CR or LF and do not begin with a prompt, break runs hold only those, prompt runs are `>` and spaces, and so the retained text holds no CR, LF or leading `>` |
| Framing.TryCreateEventIsTrim | src/modem/buffer.rs:99-124 | a text of any white space, VT included, gives no event; any other its trimmed text |
| Framing.EventsShape | src/modem/buffer.rs:99-124 | every event's content is non-blank and trimmed, and a prompt's content is `>` |
| Framing.FeedIsTokenize | src/modem/buffer.rs:30-75 | a reader that sees one byte at a time finds the same lines, prompts and remainder as the tokenizer |
| Buffer.Scan | src/modem/buffer.rs:26-75 | the nested in-place loops give exactly the tokenizer's events and leave exactly its remainder |
| Buffer.TrimPoint | src/modem/buffer.rs:82-93 | truncation cuts after the last newline before the limit if there is one, else keeps the last bytes |
| Buffer.LineBuffer.ProcessData | src/modem/buffer.rs:23-97 | events are those of old buffer and data together; the buffer is then the last `max` bytes of the remainder, holds no line end, and when not truncated no leading prompt |
| Buffer.LineBuffer.WithMaxSize | src/modem/buffer.rs:12-17 | a new buffer is empty and valid |
| Buffer.LineBuffer.Clear | src/modem/buffer.rs:19-21 | clearing leaves an empty valid buffer |
| Chunking.TwoReads | src/modem/buffer.rs:23-80 | two reads give the events and the pending text of one read of both, if and only if the second does not begin with a space of a prompt run that ends the first, or that cut leaves no trace |
| Chunking.ReadsWithFineCuts | src/modem/buffer.rs:23-80 | the same for any number of reads whose boundaries are not such cuts |
| Chunking.ChunkInvariance | src/modem/buffer.rs:23-97 | for all cuttings and non-truncating buffers the events are those of the whole stream, if and only if no prompt run with spaces in the stream is directly followed by another prompt |
| Chunking.CutsThatShow | src/modem/buffer.rs:49-68 | an input of each kind: `>` cut from its space, and `> >`, which is read in two ways |
| Chunking.ReadBeyond | src/modem/buffer.rs:30-75 | what a read holds beyond a line end is read as if it came alone |
| Chunking.SmallStreamUntruncated | src/modem/buffer.rs:82-94 | a stream no longer than the limit is never truncated, however it is cut |
| Text.DigitsCount | src/modem/parsers.rs:11-16 | how the parsers read a number: with a plus sign or without, a minus sign for signed ones only, within the limit of the type |
| Text.BlanksTrimmed | src/modem/buffer.rs:99-124 | what is trimmed: space, tab, LF, VT, FF and CR, and nothing else |
| Parsers.CmgsRoundTrip | src/modem/parsers.rs:4-17 | after any lines without the prefix, a printed reference is parsed back, for every u8 |
| Parsers.CmgsIsFirstNumber | src/modem/parsers.rs:4-17 | for any trimmed lines the number parsed is that on the first `+CMGS:` line, and parsing fails if and only if there is none |
| Parsers.CregRoundTrip | src/modem/parsers.rs:19-47 | the same for both statuses of a `+CREG:` reply, for every pair of u8 |
| Parsers.CsqRoundTrip | src/modem/parsers.rs:49-77 | the same for a `+CSQ:` reply, for every pair of i32, signs included |
| Parsers.CopsRoundTrip | src/modem/parsers.rs:79-116 | the same for a `+COPS:` reply, for every operator name without comma or line break |
| Parsers.CspnRoundTrip | src/modem/parsers.rs:118-142 | the same for a `+CSPN:` reply, for every name without line break, quotes in it included, and any tail without quotes |
| Parsers.CbcRoundTrip | src/modem/parsers.rs:144-180 | the same for a `+CBC:` reply: status and charge, for every pair of u8, and millivolts |
| Parsers.CregUnderstood | src/modem/parsers.rs:19-47 | a `+CREG:` line is understood if and only if it has two values and both are u8; else the error |
| Parsers.CsqUnderstood | src/modem/parsers.rs:49-77 | the same for `+CSQ:` and i32 |
| Parsers.CopsUnderstood | src/modem/parsers.rs:79-116 | the same for `+COPS:`: at least three values, the first two u8 |
| Parsers.PositionParsed | src/modem/parsers.rs:196-211 | an unsolicited position line gives what stands behind its first colon with a space, or an error if that cannot be decoded or there is no such place |
| Handlers.Answer | src/modem/state_machine.rs:309-329 | the reply to a finished response is an error or the variant of its request |
| StateMachine.PrefixPlaysNoPart | src/modem/state_machine.rs:362-386 | a line acts as the header of an unsolicited message or as data; the response prefix a command expects makes no difference |
| StateMachine.ErrorPathIdle | src/modem/worker.rs:144-152 | after a failed transition the machine is idle already, so the worker's error path changes nothing |
| StateMachine.LineMoves | src/modem/state_machine.rs:145-340 | a line event keeps the held command with its deadline, or answers it once with a fitting reply, or drops it unanswered: the last if and only if a prompt or header comes where a payload line is due |
| StateMachine.FailAnswers | src/modem/state_machine.rs:77-107 | failing answers the active or interrupted command once and leaves the machine idle; without one it changes nothing |
| StateMachine.TimeoutAnswers | src/modem/state_machine.rs:119-143 | a tick answers the active command if and only if its deadline has come, and never an interrupted one |
| StateMachine.MovesLedger | src/modem/commands.rs:77-105 | in each such move every command stays in exactly as many places: held, replied to or dropped |
| StateMachine.RepliesGrow | src/modem/commands.rs:77-105 | replies given are never taken back |
| StateMachine.LinesSame | src/modem/state_machine.rs:172-340 | whose receivers are gone makes no difference to lines, but for the held command itself |
| StateMachineObject.ModemStateMachine.FailActiveCommand | src/modem/state_machine.rs:77-107 | the object's state, replies and drops after the call are those of the function of the same name |
| StateMachineObject.ModemStateMachine.StartCommand | src/modem/state_machine.rs:109-117 | the same for starting a command: one write, empty response buffer, deadline from its timeout |
| StateMachineObject.ModemStateMachine.HandleCommandTimeout | src/modem/state_machine.rs:119-143 | the same for the timeout, with the value that tells the worker to clear its buffer |
| StateMachineObject.ModemStateMachine.Respond | src/modem/commands.rs:77-105 | the one-shot channel is used once; the call fails if it was used or its receiver is gone |
| StateMachineObject.ModemStateMachine.ProcessCommand | src/modem/state_machine.rs:266-340 | prompt and response handling of the command taken out of the state, with the state to go to |
| StateMachineObject.ModemStateMachine.ProcessEvent | src/modem/state_machine.rs:172-264 | takes the state, and gives the next one or fails with the state dropped |
| StateMachineObject.ModemStateMachine.HandleUnsolicited | src/modem/state_machine.rs:342-360 | emits the message or raises the event that the handler gives, or nothing when it cannot decode |
| StateMachineObject.ModemStateMachine.TransitionState | src/modem/state_machine.rs:145-170 | a whole transition in place: classification, processing, assignment |
| StateMachineObject.ModemStateMachine.ResetToIdle | src/modem/state_machine.rs:73-75 | idle, with the reply channel of a discarded command dropped |
| Interleaving.Frame | src/modem/state_machine.rs:172-264 | what a line does to the command does not depend on what was queued or sent before |
| Interleaving.NotificationDelivered | src/modem/handlers.rs:82-128 | by header: an SMS or report is passed on if it decodes and else nothing is, its number as decoded but for "ASDAmobile", which becomes "2732"; a network change is passed on; each of the four power-down texts raises the shutdown; the state is as before |
| Interleaving.PositionDelivered | src/modem/handlers.rs:129-131 | a `+UGNSINF` header, whatever follows the prefix, passes on the report behind its first colon with a space if there is one that decodes, and else nothing; the state is as before |
| Interleaving.NonInterference | src/modem/state_machine.rs:172-236 | on any stream of plain events and whole unsolicited messages, state, response buffer, deadline, replies and writes are those of the stream without the messages, and messages and status changes those of the messages alone, decodable or not |
| Interleaving.ErasedIsSilent | src/modem/state_machine.rs:238-254 | a stream without unsolicited messages emits no message and changes no status |
| Provenance.BufferProvenance | src/modem/state_machine.rs:304-332 | while a command is neither answered nor dropped its buffer grows by exactly the lines that are no prompts and no parts of unsolicited messages, in order, and its deadline stays |
| Provenance.ReferenceProvenance | src/modem/parsers.rs:4-17 | a reply `SendResult(r)` carries the number on the first `+CMGS:` line of all that the command heard |
| History.BufferHistory | src/modem/state_machine.rs:20-39 | in every reachable worker state the held command's buffer is precisely the lines so heard since it was started, and its deadline is the one set then |
| History.ReferenceHistory | src/modem/state_machine.rs:304-332 | in every run, a step that answers with a reference is a read, and the reference is on the first `+CMGS:` line read since the answered command was started |
| WorkerRuns.StepInv | src/modem/worker.rs:113-232 | every step of the worker keeps the ledger of commands, the status chain and the shape of the line buffer |
| WorkerRuns.Conservation | src/modem/worker.rs:113-232 | after any run each accepted command is in exactly one place, once: queued, held, replied to or dropped; nothing else is anywhere |
| WorkerRuns.OrderedAndTyped | src/modem/handlers.rs:135-186 | after any run the queue is in order of acceptance with every channel unused, the held command can still be answered, and every reply fits its request |
| WorkerRuns.FirstInFirstOut | src/modem/worker.rs:127-132 | the command that a step takes from the queue is the next in order, and is then held or replied to |
| WorkerRuns.OnlyMisplacedLose | src/modem/state_machine.rs:255-262 | the commands a run drops unanswered are exactly those held when a read put a prompt or a second header where a payload was due |
| Conversation.LossIsReachable | src/modem/state_machine.rs:255-262 | such a loss can be reached: a run from the start, of five steps, that drops its command |
| WorkerRuns.OfflineSafety | src/modem/worker.rs:137-141 | whenever the worker is offline no command is active or interrupted |
| WorkerRuns.ShutdownSettles | src/modem/worker.rs:174-199 | when the shutdown arm has emptied the queue every command accepted so far is replied to or dropped, once |
| WorkerRuns.StatusHistory | src/modem/worker.rs:252-272 | the status updates emitted chain from Startup to the present status without stuttering; Startup never recurs, Online comes from Startup or Offline only, and after ShuttingDown comes Offline |
| WorkerRuns.BufferBounded | src/modem/buffer.rs:77-94 | after any run the line buffer holds one unfinished line within its limit |
| WorkerRuns.RunGrows | src/modem/worker.rs:113-232 | over any run accepted commands and replies are only added to |
| WorkerObject.ModemWorker.constructor | src/modem/worker.rs:70-96 | the worker begins its loop online or offline, with the update from Startup sent |
| WorkerObject.ModemWorker.SetStatus | src/modem/worker.rs:252-272 | one update per change of status, none without a change |
| WorkerObject.ModemWorker.HandleWorkerEvent | src/modem/worker.rs:235-250 | the oldest event is taken; a failed write fails the command and goes offline |
| WorkerObject.ModemWorker.AcceptCommand | src/modem/worker.rs:127-132 | the arm makes exactly the step `Start` |
| WorkerObject.ModemWorker.HandleLineEvents | src/modem/worker.rs:144-152 | the loop over line events with its error path is the fold of `HandleLine` |
| WorkerObject.ModemWorker.HandleRead | src/modem/worker.rs:135-160 | closed port, data and read error make exactly their steps |
| WorkerObject.ModemWorker.HandleTick | src/modem/worker.rs:163-171 | the timeout arm makes exactly the step `Tick`, clearing the buffer only after a timeout that was delivered |
| WorkerObject.ModemWorker.ShutDown | src/modem/worker.rs:174-199 | the arm with its two loops, while commands keep arriving, makes a run of the worker's steps, each enabled at its turn, that enters the arm first and leaves it last; it ends offline, idle and with an empty line buffer |
| WorkerObject.ModemWorker.TryReconnect | src/modem/worker.rs:274-308 | online again if and only if it was offline and the modem passes test and initialization |
| WorkerObject.ModemWorker.HandleReconnectTick | src/modem/worker.rs:215-227 | the arm makes exactly the step `Reconnect` |
| WorkerObject.ModemWorker.Refuse | src/modem/worker.rs:210-212 | the oldest queued command is taken and answered with the error |
| WorkerObject.ModemWorker.TrySend | src/modem/sender.rs:104-123 | a full queue refuses the command, another appends it on a channel of its own |
| EndToEnd.FramedReads | src/modem/buffer.rs:23-97 | lines and prompts, divided by any line ends, are read as exactly those events, however the stream is cut, behind the event of a line left over and before the beginning of a further line |
| EndToEnd.MessageRead | src/modem/types.rs:164-172 | a header, one line end and its payload are read as one message |
| EndToEnd.PlainDialogue | src/modem/state_machine.rs:266-340 | any early lines, the prompt, and any lines to the first that concludes make one write of the PDU and one reply, that to all lines heard |
| EndToEnd.SubmissionAnswered | src/modem/state_machine.rs:145-340 | end to end: for any early lines and any lines behind the prompt to the first that concludes, success or refusal, any notices anywhere among them, any line ends, any cut into reads and any unfinished line left over that is no header whose payload is due, the submission is answered once, the PDU is written once, and only the notices emit messages; the reply is the number on the first `+CMGS:` line heard if there is one and the last line ends in OK, else an error |
| EndToEnd.ReferenceReplied | src/modem/handlers.rs:146-148 | a submission told a reference and OK is answered with it, if and only if no `+CMGS:` line without it was heard before |
| EndToEnd.StaleReferenceWins | src/modem/parsers.rs:4-8 | so a reference line left over from before wins over the one that follows, for every pair of references |
| EndToEnd.AnswerOfLines | src/modem/handlers.rs:135-148 | a submission is answered with the first number heard if and only if its final line ends in OK and there is such a number, else with an error |
| EndToEnd.SubmissionBehindHeader | src/modem/state_machine.rs:255-262 | behind a header left over whose payload is due, the first early line is taken for it and the rest is answered; without early lines, or if a notice comes first, the submission is dropped without a reply; for any notices, line ends and cuts |
| Queries.StartAsks | src/modem/handlers.rs:40-56 | what is asked is what the answer is read for: a query writes `AT+`, the name of the line its reply is read from, `?` for those that have it, and the line end; a submission writes `AT+CMGS=`, digits that are its length, and the line end; written once, with the sequence number, the deadline from the given or default timeout, and waiting for a prompt or for data |
| Queries.PromptEndsQuery | src/modem/state_machine.rs:266-303 | a prompt answers a query at once with an error, and writes nothing |
| Queries.LineEnds | src/modem/commands.rs:28-41 | a line answers the command if and only if it is OK or ERROR or, where data is waited for, begins with `+CMGS:`, and behind the PDU with `+CME ERROR:` or `+CMS ERROR:`; another line is added to the response and nothing is replied |
| Queries.QueryAnswered | src/modem/state_machine.rs:304-332 | end to end for queries: any response lines, any notices anywhere among them, any line ends, any cut into reads and any unfinished line left over that is no header whose payload is due give one reply, that to the lines heard up to the first that completes the query; a successful response is answered with its own values if and only if the line left over does not complete a query and carries no other values under the request's prefix; a failed one with an error |
| Queries.HeardAnswer | src/modem/handlers.rs:135-186 | the answer in each case of the line left over: an error if it completes the query, else the response's own exactly when it carries no other values |
| Queries.AnswerBehind | src/modem/parsers.rs:4-211 | for every request the answer to a successful response is what the first line with the request's prefix carries |
| Queries.FinalLeftOver | src/modem/commands.rs:28-41 | an OK left over is the whole answer to any query, and so an error, whatever the response |
| Queries.StaleValuesWin | src/modem/parsers.rs:49-77 | a signal line left over wins over that of the response, for every two pairs of values |
| Queries.QueryBehindHeader | src/modem/state_machine.rs:238-264 | behind a header left over whose payload is due, the first response line is taken for it and the rest is the answer, or the query waits on if there is none; a notice in that place drops the query |
| Queries.FinalLineDecides | src/modem/handlers.rs:141-143 | a response is a success if and only if its last line is OK |
| Queries.FailureIsError | src/modem/handlers.rs:141-143 | a response that ends with ERROR is answered with an error, whatever came before |
| Queries.SubmissionRefused | src/modem/handlers.rs:135-148 | ERROR, `+CME ERROR:` or `+CMS ERROR:` answers a submission with an error if and only if the refusal itself does not end in OK or no number was heard on a first `+CMGS:` line; else that number is the answer |
| Queries.RefusalTaken | src/modem/handlers.rs:141-148 | a refusal taken for a success: `+CMGS: 5` and then `+CMS ERROR: NOT OK` is answered `SendResult(5)` |
| Queries.NetworkStatusValues | src/modem/handlers.rs:149-155 | a successful response is answered with the two statuses it prints |
| Queries.SignalStrengthValues | src/modem/handlers.rs:156-159 | the same for signal strength and error rate |
| Queries.NetworkOperatorValues | src/modem/handlers.rs:160-167 | the same for the operator |
| Queries.ServiceProviderValues | src/modem/handlers.rs:168-170 | the same for the provider's name |
| Queries.BatteryLevelValues | src/modem/handlers.rs:171-178 | the same for status, charge and voltage of the battery, in thousandths |
| Queries.FixStatusValue | src/modem/handlers.rs:179-181 | the same for the fix status, if it can be decoded, and else an error |
| Queries.LocationValue | src/modem/handlers.rs:182-184 | the same for the position report |
| Conversation.CalmRun | src/modem/worker.rs:113-172 | while the port works, the deadline has not come and no power-down notice is read, writes, ticks, further commands and other callers giving up do not change what the lines read do |
| Conversation.RepliedByRead | src/modem/worker.rs:113-232 | for any command: the reply its lines give is the next reply of the worker, given by the read that brings their end, whatever else that read brings and whatever steps of any kind follow |
| Conversation.LostForGood | src/modem/commands.rs:77-105 | a command once dropped is neither queued, held nor replied to after any further steps |
| Conversation.LostByRead | src/modem/worker.rs:135-153 | so a command that its lines drop is lost to the worker from the read that brings their end on, whatever follows |
| Conversation.SubmissionAnsweredByWorker | src/modem/worker.rs:113-172 | the end-to-end property of submissions for the whole worker loop, once the submission is started, up to the end of its transcript |
| Conversation.SubmissionReplied | src/modem/worker.rs:113-232 | the submission's reply is given by the read that brings the end of the transcript, whatever else it brings, a power-down notice included, and whatever follows; it is the first number heard or an error, as above |
| Conversation.SubmissionFromQueue | src/modem/worker.rs:127-153 | the same from the command queue on, for any step of the run at which the command is started |
| Conversation.SubmissionLost | src/modem/worker.rs:135-153 | a submission behind a header left over, without early lines or with a notice first, is lost for good |
| Conversation.SubmissionRepliedBehind | src/modem/worker.rs:135-153 | with an early line first it is answered from the other lines, and that is the worker's next reply |
| Conversation.QueryReplied | src/modem/worker.rs:113-232 | the same for queries, with the exact condition on the values |
| Conversation.QueryFromQueue | src/modem/worker.rs:127-153 | and from the command queue on |
| Conversation.QueryBehind | src/modem/worker.rs:135-153 | a query behind a header left over is answered from its other lines, or lost for good if a notice comes first |
| Conversation.QueryWaitsOn | src/modem/worker.rs:135-153 | or waits on, if its only line was taken for the payload |
| Conversation.ScheduledSubmission | src/modem/worker.rs:113-172 | on the plain schedule (write, prompt, write, answer) every submission at the head of the queue is answered, so the conditions above can be met |
| Conversation.LateAnswerIsLeftOver | src/modem/worker.rs:163-171 | a run from the start, with a timeout and an answer that comes late, that leaves an OK over when the next query is due |
| Shutdown.ShutDownWhileHeld | src/modem/worker.rs:122-126 | a command held behind the read that brings a power-down notice is, over any steps that follow, on the way to being failed or failed, before any other reply: with the shutdown's error, or with that of a failed write if a write was due |
| Shutdown.ClosingEnds | src/modem/worker.rs:174-199 | and the worker's own steps get there, waiting for neither modem nor callers |
| Shutdown.TranscriptSoFar | src/modem/state_machine.rs:304-332 | a submission is so held before its prompt has been read, and behind it as long as no line that concludes has, whatever notices have |
| Shutdown.ResponseSoFar | src/modem/state_machine.rs:304-332 | the same for queries |
| Shutdown.ScheduledShutdown | src/modem/worker.rs:113-199 | any command at the head of the queue can be started, written and then failed for the shutdown, so these conditions can be met |
| StepEffects.PortLost | src/modem/worker.rs:135-160 | a closed port or a read error answers the held command with that error, and takes the worker offline, told once |
| StepEffects.EventTaken | src/modem/worker.rs:235-250 | a write that the port takes, while online, changes nothing else; another one fails the held command and takes the worker offline; a status event sets that status |
| StepEffects.TurnedAway | src/modem/worker.rs:186-212 | while shutting down and while offline the oldest waiting command is taken and answered with the reason |
| StepEffects.OfflineTurnsAway | src/modem/worker.rs:209-212 | offline, the commands that wait can all be answered so, in their order, and nothing else changes |
| StepEffects.OfflineDiscards | src/modem/worker.rs:203-207 | offline, writes that were still queued are taken without being written, and nothing else changes |
| StepEffects.DrainingEnds | src/modem/worker.rs:180-184 | the shutdown fails the held command |
| StepEffects.TimeoutTold | src/modem/worker.rs:163-171 | a tick fails an active command whose deadline has come, and does nothing else |
| StepEffects.Resumes | src/modem/worker.rs:193-227 | after reconnecting the worker is online and idle, after the shutdown offline and idle, told once |
| StepEffects.StepTold | src/modem/commands.rs:77-105 | whatever a step replies is added to the replies, and reaches its caller if and only if that one still waits |
| StepEffects.GoneHearsNothing | src/modem/commands.rs:77-105 | so over any run, replies to a caller that has given up reach no one |
| StepEffects.EnqueueAppends | src/modem/sender.rs:104-123 | a command is queued last, as given, on a fresh channel, unless the queue is full; then nothing changes |
| StepEffects.QueueBounded | src/modem/sender.rs:110-123 | over any run the queue never holds more than its capacity |
| StepEffects.BufferAfterStep | src/modem/worker.rs:163-227 | only reads add to the line buffer; it is emptied by a tick at or after the deadline of an active command whose caller still waits, by reconnecting and at the end of the shutdown, and by nothing else |
| StepEffects.BufferAtRead | src/modem/buffer.rs:77-94 | a read leaves the unfinished line at the end of buffer and data, or the last bytes of it that the limit allows |
| StepEffects.GivenUp | src/modem/worker.rs:163-171 | a timeout whose caller has given up leaves the line buffer as it is |
| StepEffects.QueryAfterEmptying | src/modem/worker.rs:163-171 | a query started after a delivered timeout, and before anything else is read, is answered from its own lines, whatever was pending when the timeout came |
| StepEffects.ScheduledSignal | src/modem/worker.rs:113-160 | and this can be met: a signal query that finds the line buffer empty is told the two values the modem answers, for every pair |
| Multipart.Stripped | src/sms/multipart.rs:37-45 | exactly one trailing `@` is removed, if there is one |
| Multipart.AddInv | src/sms/multipart.rs:31-61 | the counters stay true: received slots, and the exact byte length of the compiled content |
| Multipart.Utf8LenOfOne | src/sms/multipart.rs:31-61 | the byte length is that of UTF-8: two, three and four bytes from U+0080, U+0800 and U+10000 on |
| Multipart.CompleteIffFilled | src/sms/multipart.rs:60 | complete if and only if every slot is filled |
| Multipart.SlotsHoldFirstTexts | src/sms/multipart.rs:31-61 | after any arrivals the k-th slot holds the text of the first arrival of the k-th part: index k, counted from 1, with 0 taken for 1 |
| Multipart.AssembledContent | src/sms/multipart.rs:63-82 | complete if and only if every part 1 to total has arrived; the result has the first arrival's number and the first-received texts in the order of the parts |
| Multipart.CompleteContent | src/sms/multipart.rs:31-82 | arrivals in any order, with duplicates and indexes beyond the total, that bring text i under index i for all parts, give text 1, text 2 and so on |
| Multipart.OrderIndependence | src/sms/multipart.rs:31-82 | any two such series of arrivals give the same content |
| Reception.IncomingInv | src/sms/mod.rs:205-254 | stored groups stay consistent, unfinished and of their key's number, and compiling never fails |
| Reception.RunInv | src/sms/mod.rs:187-254 | so over every run of arrivals and sweeps |
| Reception.KeyedIsolation | src/sms/mod.rs:187-254 | from an empty receiver on, each part of a key, among any other arrivals and sweeps at any times, gives the result it would alone without sweeps, if each part of an unfinished group comes at most 1800 seconds after the one before |
| Reception.LatePartIsLost | src/sms/multipart.rs:85-87 | for every run with a part that comes more than 1800 seconds after the one before in its unfinished group there are sweeps that make a part miss its group |
| Reception.IsolationIffTimely | src/sms/mod.rs:187-254 | so the parts of a key are placed as they would be alone, wherever the sweeps fall, if and only if none is so late |
| Receiver.SMSMultipartMessages.WithCapacity | src/sms/multipart.rs:20-29 | a new assembler has empty slots |
| Receiver.SMSMultipartMessages.AddMessage | src/sms/multipart.rs:31-61 | the fields change as `Multipart.AddMessage` says, and the value returned is completeness |
| Receiver.SMSMultipartMessages.Compile | src/sms/multipart.rs:63-82 | the loop gives the concatenation in slot order |
| Receiver.SMSMultipartMessages.HasStalled | src/sms/multipart.rs:85-87 | stalled after more than 30 minutes |
| Receiver.SMSReceiver.GetIncomingSmsMessage | src/sms/mod.rs:205-254 | the map of assemblers changes, each in place, as `Reception.Incoming` says |
| Receiver.SMSReceiver.CleanupStalledMultipart | src/sms/mod.rs:187-200 | exactly the stalled groups are removed |
| Receiver.SMSReceiver.HandleIncomingSms | src/sms/mod.rs:124-145 | what a message completes is stored; a part that completes nothing stores nothing |
| Receiver.SMSReceiver.HandleDeliveryReport | src/sms/mod.rs:148-183 | the three database calls together do to the tables what `Deliveries.HandleReport` says; without a target nothing changes |
| Receiver.SMSDatabase.InsertMessage | src/sms/database.rs:92-113 | one row more, completed if final; the identifier is its position |
| Receiver.SMSDatabase.InsertDeliveryReport | src/sms/database.rs:131-148 | one report more |
| Receiver.SMSDatabase.UpdateMessageStatus | src/sms/database.rs:167-189 | the row's status changes; it is completed or left as complete as it was |
| Deliveries.Target | src/sms/database.rs:150-165 | the newest open outgoing row with the number and reference, if and only if there is one |
| Deliveries.ReportApplied | src/sms/mod.rs:148-183 | a report finds the last row that is open, outgoing, and has its number and its reference; that row gets its status, and is completed if that is final; no other row changes, and without such a row nothing does |
| Deliveries.ReceiveFinds | src/sms/database.rs:150-165 | the handler's first call finds that same row, if and only if there is one |
| Deliveries.StepInv | src/sms/mod.rs:148-183 | each of the handler's calls, and a send between any two, keeps the ledger |
| Deliveries.DeliveryLedger | src/sms/mod.rs:148-183 | on every run, between reports: at most one final report per message, the last; a message is completed if and only if it has one or was stored so; its status is its last report's or the first; the rest of it never changes |
| Deliveries.CompletedStays | src/sms/database.rs:167-189 | from whatever state, no run opens a completed row again, and rows keep their number and content |
| Deliveries.StepsHandleReport | src/sms/mod.rs:151-180 | the handler's three steps, uninterrupted, are one whole report |
| Deliveries.RunIsActions | src/sms/mod.rs:151-180 | any run of the three calls with sends between them amounts to whole reports, each at the moment it is received: it completes the message that was the newest open one then, whatever is sent before its last call |
| Deliveries.OpenMembers | src/sms/database.rs:155-157 | the open messages of a number and reference, newest first, are exactly its open rows |
| Deliveries.AddressIsStack | src/sms/database.rs:150-189 | whatever else is sent and reported, the open messages of a number and reference are a stack: a send pushes, a report with both finds the top, a final report pops it; with `RunIsActions`, on every interleaving |
| Deliveries.Draining | src/sms/mod.rs:151-180 | without new sends final reports complete the open messages once each in strictly descending order, other reports leave the target, and when all are taken a report finds none |
| Sender.SendAllParts | src/modem/sender.rs:83-102 | the part loop gives the recursive result over any worker run around it, or at once the error of making the requests |
| Sender.RequestTyped | src/modem/sender.rs:96-138 | over any worker run, a request that is answered is answered on its own channel with an error or its variant |
| Sender.GivenUpForGood | src/modem/sender.rs:124-138 | a request that was queued and then given up is never answered to its caller, whatever the worker does later |
| Sender.PartsInOrder | src/modem/sender.rs:87-102 | parts go out in order on increasing channels, stop at the first error, and all before it have references; the response is the last one's |
| Sender.StoredIffSent | src/sms/mod.rs:49-94 | a row is stored if and only if the message has parts and each got a reference; it carries the last part's; the invalid-response and send-failure branches are never taken, and a message that no requests can be made of is neither sent nor stored |
| Receiver.SMSManager.Store | src/sms/mod.rs:53-85 | each outcome of sending leaves the tables and the result that `Deliveries.StoreSent` says |
| Sender.SendSms | src/sms/mod.rs:49-94 | sending over the worker run and storing, one after the other, on the manager's database |
| Inbox.StreamPasses | src/modem/handlers.rs:82-133 | what is passed on from a stream of notices is what they notify, in order |
| Inbox.OfAllPassed | src/modem/handlers.rs:82-107 | the messages and the delivery reports among it are those that decode, with the sender's number put right |
| Inbox.PartsGiveMessage | src/sms/mod.rs:205-254 | parts of a key that bring a text under each index, the last completing them, give with it the texts in the order of the indexes, under the key's number |
| Inbox.MultipartStored | src/app.rs:129-141 | from bytes to rows: a message whose parts are notified in any transcripts, among any other notices, with any line ends and cut into any reads, and that the receiver is given in time, is stored with the texts in order, as an incoming, open row without reference |
| Inbox.WholeStored | src/sms/mod.rs:210-213 | a message without a part header, so notified, is stored as it is |
| Inbox.ReportsHandled | src/app.rs:129-147 | from bytes to the ledger: the delivery reports notified in any transcripts, handled in order with sends between any two calls, find and complete the rows of each address as a stack; while nothing is sent to it, the newest open row each time, one for each final report |
| InboxRuns.RunAlike | src/modem/worker.rs:113-172 | incoming messages and reports do not depend on commands: over any steps that keep the worker at its port, starts, replies and timeouts among them, those sent on are what the lines read give alone |
| InboxRuns.MultipartStoredByRun | src/app.rs:129-141 | so the multipart message is stored over any such run of the whole worker |
| InboxRuns.WholeStoredByRun | src/sms/mod.rs:124-145 | so is, over such runs, a message without a part header |
| InboxRuns.ReportsHandledByRun | src/app.rs:129-147 | and the reports are so handled over any such run |

## Left out

- Text is ASCII: a `char` stands for a byte in `Text`, `Framing` and `Parsers`; recovery from invalid UTF-8 is not modelled.
- The PDU, GSM and GNSS decoders and `MessageStatus` are parameters (`Decoder`, `isFinal`), so every theorem holds for all of them; fix status and position report are carried as the text they were decoded from.
- The battery voltage is a `real`: single-precision rounding is not modelled.
- The cause inside the texts "State machine error" and "Write failed" is left off; the former is never sent, as `StateMachine.ErrorPathIdle` shows.
- The worker's internal event channel is always open, because the worker owns its receiver; the failure to send on it is not modelled, nor is a closed command queue.
- Time is what each step is told, in seconds; that steps come in time is a condition of a theorem where it matters, and the two-second pause of the shutdown is a step of its own.
- The sequence number of a command is given by the caller; the global counter and its wrap-around at 2^32 are not modelled, nothing depends on it.
- The endless loop of `run` is the step relation of `Worker`; the methods of `ModemWorker` are its arms.
- Serial port, GPIO and modem initialization are success or failure of a step.
- Database calls succeed; content is stored in plain text; the SQL engine, encryption, timestamps, friendly names and pagination are not modelled. The conversions of messages to rows are in a library that is not part of this model.
- The table of send failures: the branch that writes it is never taken, as `Sender.StoredIffSent` shows.
- HTTP, WebSocket, webhooks, configuration and logging have no state of their own that these pieces depend on.
