/**
 Sending a message of several parts (src/modem/sender.rs) to the worker, and storing it once it
 is sent (`send_sms` in src/sms/mod.rs). Between the sender's own acts the worker makes any steps.
 */
module Sender {
  import opened Text
  import opened Types
  import opened Handlers
  import opened StateMachine
  import opened Worker
  import opened WorkerRuns
  import opened Deliveries
  import opened Receiver
  import StepEffects

  type Steps = seq<Worker.Step>

  /** What surrounds one `send_request`: the worker's steps before it, and until it stops waiting. */
  datatype Attempt = Attempt(before: Steps, sequence: nat, after: Steps)

  datatype Part = Part(channel: nat, response: ModemResponse)

  /** The reply that reached the receiver of a channel. */
  function Received(replies: seq<Reply>, channel: nat): Option<ModemResponse> {
    if replies == [] then None
    else if replies[0].channel == channel && replies[0].delivered then Some(replies[0].response)
    else Received(replies[1..], channel)
  }

  function Await(w: Worker.State, request: ModemRequest, timeout: Option<nat>, a: Attempt, decoder: Decoder)
    : Worker.State
  {
    Worker.Run(Submit(w, a.sequence, request, timeout), a.after, decoder)
  }

  /** What the sender has of its channel when it stops waiting, and drops the receiver. */
  function Outcome(w: Worker.State, channel: nat): (Worker.State, Result<Part>) {
    match Received(w.machine.replies, channel)
    case Some(response) => (w, Ok(Part(channel, response)))
    case None => (w.(gone := w.gone + {channel}), Err("No response"))
  }

  /** `try_send` and what follows it: refused by a full queue, answered, or given up. */
  function TryRequest(w: Worker.State, request: ModemRequest, timeout: Option<nat>, a: Attempt, decoder: Decoder)
    : (Worker.State, Result<Part>)
  {
    if |w.commands| >= w.capacity then (w, Err("Command queue is full! The modem may be overwhelmed"))
    else Outcome(Await(w, request, timeout, a, decoder), |w.accepted|)
  }

  /** `send_request`, at some time after `w`. */
  function SendRequest(w: Worker.State, request: ModemRequest, timeout: Option<nat>, a: Attempt, decoder: Decoder)
    : (Worker.State, Result<Part>)
  {
    TryRequest(Worker.Run(w, a.before, decoder), request, timeout, a, decoder)
  }

  /** What `ModemSender::send_sms` does: the worker after it, the parts answered, and its result. */
  datatype Sending = Sending(worker: Worker.State, parts: seq<Part>, result: Result<(bool, Option<ModemResponse>)>)

  /** Sends the requests from the i-th on. */
  function SendFrom(w: Worker.State, requests: seq<ModemRequest>, i: nat, last: Option<ModemResponse>,
                    timeout: Option<nat>, world: nat -> Attempt, decoder: Decoder): Sending
    requires i <= |requests|
    decreases |requests| - i
  {
    if i == |requests| then Sending(w, [], Ok((true, last)))
    else
      match SendRequest(w, requests[i], timeout, world(i), decoder)
      case (n, Err(e)) => Sending(n, [], Err(e))
      case (n, Ok(part)) =>
        if part.response.Error? then Sending(n, [part], Ok((false, Some(part.response))))
        else
          var more := SendFrom(n, requests, i + 1, Some(part.response), timeout, world, decoder);
          more.(parts := [part] + more.parts)
  }

  /** `created` are the requests made of the message, or why none could be made. */
  function SendMessage(w: Worker.State, created: Result<seq<ModemRequest>>, timeout: Option<nat>,
                       world: nat -> Attempt, decoder: Decoder): Sending {
    match created
    case Err(e) => Sending(w, [], Err(e))
    case Ok(requests) => SendFrom(w, requests, 0, None, timeout, world, decoder)
  }

  /** The part loop, for a message whose requests could be made. */
  method SendAllParts(w: Worker.State, created: Result<seq<ModemRequest>>, timeout: Option<nat>,
                      world: nat -> Attempt, decoder: Decoder)
    returns (worker: Worker.State, result: Result<(bool, Option<ModemResponse>)>)
    ensures var s := SendMessage(w, created, timeout, world, decoder); worker == s.worker && result == s.result
  {
    if created.Err? {
      return w, Err(created.error);
    }
    var requests := created.value;
    var lastResponse: Option<ModemResponse> := None;
    worker := w;
    var i := 0;
    while i < |requests|
      invariant i <= |requests|
      invariant var s := SendFrom(w, requests, 0, None, timeout, world, decoder);
        var t := SendFrom(worker, requests, i, lastResponse, timeout, world, decoder);
        s.worker == t.worker && s.result == t.result
    {
      var (n, outcome) := SendRequest(worker, requests[i], timeout, world(i), decoder);
      worker := n;
      match outcome {
        case Err(e) => return worker, Err(e);
        case Ok(part) =>
          if part.response.Error? {
            return worker, Ok((false, Some(part.response)));
          }
          lastResponse := Some(part.response);
      }
      i := i + 1;
    }
    result := Ok((true, lastResponse));
  }

  // --- what is answered ---

  lemma {:induction false} ReceivedIsReply(replies: seq<Reply>, channel: nat)
    ensures Received(replies, channel).Some? ==> Reply(channel, Received(replies, channel).value, true) in replies
    ensures Received(replies, channel).None? ==>
      forall i :: 0 <= i < |replies| && replies[i].channel == channel ==> !replies[i].delivered
  {
    if replies != [] { ReceivedIsReply(replies[1..], channel); }
  }

  /** The worker took the request on this channel, and its caller received this response. */
  predicate IsAnswered(w: Worker.State, part: Part, request: ModemRequest) {
    && part.channel < |w.accepted| && w.accepted[part.channel] == request
    && Reply(part.channel, part.response, true) in w.machine.replies
  }

  lemma SubmitInv(w: Worker.State, sequence: nat, request: ModemRequest, timeout: Option<nat>, decoder: Decoder)
    requires WorkerRuns.Inv(w)
    ensures WorkerRuns.Inv(Submit(w, sequence, request, timeout))
  {
    WorkerRuns.StepInv(w, Enqueue(sequence, request, timeout), decoder);
  }

  lemma AbandonInv(w: Worker.State, channel: nat, decoder: Decoder)
    requires WorkerRuns.Inv(w)
    ensures WorkerRuns.Inv(w.(gone := w.gone + {channel}))
  {
    WorkerRuns.StepInv(w, Abandon(channel), decoder);
  }

  lemma SubmitTakes(w: Worker.State, sequence: nat, request: ModemRequest, timeout: Option<nat>)
    requires |w.commands| < w.capacity
    ensures var s := Submit(w, sequence, request, timeout);
      s.accepted == w.accepted + [request] && s.machine == w.machine
  {
  }

  lemma TakenStays(accepted: seq<ModemRequest>, request: ModemRequest, later: seq<ModemRequest>)
    requires accepted + [request] <= later
    ensures accepted <= later && |accepted| < |later| && later[|accepted|] == request
  {
    assert (accepted + [request])[|accepted|] == request;
  }

  /** A submitted request is on the channel it was given, whatever the worker does next. */
  lemma AwaitKeeps(w: Worker.State, request: ModemRequest, timeout: Option<nat>, a: Attempt, decoder: Decoder)
    requires WorkerRuns.Inv(w) && |w.commands| < w.capacity
    ensures var n := Await(w, request, timeout, a, decoder);
      && WorkerRuns.Inv(n) && Grows(w, n)
      && |w.accepted| < |n.accepted| && n.accepted[|w.accepted|] == request
  {
    var s := Submit(w, a.sequence, request, timeout);
    SubmitTakes(w, a.sequence, request, timeout);
    SubmitInv(w, a.sequence, request, timeout, decoder);
    RunGrows(s, a.after, decoder);
    TakenStays(w.accepted, request, Worker.Run(s, a.after, decoder).accepted);
  }

  lemma ReceivedFits(w: Worker.State, channel: nat, request: ModemRequest)
    requires RepliesFit(w.machine.replies, w.accepted)
    requires channel < |w.accepted| && w.accepted[channel] == request
    ensures var r := Received(w.machine.replies, channel);
      r.Some? ==> IsAnswered(w, Part(channel, r.value), request) && Fits(request, r.value)
  {
    ReceivedIsReply(w.machine.replies, channel);
  }

  /** A part that is answered is answered with what its request calls for, or an error. */
  ghost predicate Typed(w: Worker.State, request: ModemRequest, n: Worker.State, outcome: Result<Part>) {
    && WorkerRuns.Inv(n) && Grows(w, n)
    && (outcome.Ok? ==>
          && |w.accepted| <= outcome.value.channel
          && IsAnswered(n, outcome.value, request) && Fits(request, outcome.value.response))
  }

  lemma AnswerTyped(w: Worker.State, request: ModemRequest, timeout: Option<nat>, a: Attempt, decoder: Decoder)
    requires WorkerRuns.Inv(w) && |w.commands| < w.capacity
    ensures var n := Await(w, request, timeout, a, decoder);
      var (n', outcome) := Outcome(n, |w.accepted|);
      Typed(w, request, n', outcome)
  {
    var n := Await(w, request, timeout, a, decoder);
    AwaitKeeps(w, request, timeout, a, decoder);
    ReceivedFits(n, |w.accepted|, request);
    AbandonInv(n, |w.accepted|, decoder);
  }

  lemma TryTyped(w: Worker.State, request: ModemRequest, timeout: Option<nat>, a: Attempt, decoder: Decoder)
    requires WorkerRuns.Inv(w)
    ensures var (n, outcome) := TryRequest(w, request, timeout, a, decoder); Typed(w, request, n, outcome)
  {
    if |w.commands| < w.capacity {
      AnswerTyped(w, request, timeout, a, decoder);
    }
  }

  lemma RequestTyped(w: Worker.State, request: ModemRequest, timeout: Option<nat>, a: Attempt, decoder: Decoder)
    requires WorkerRuns.Inv(w)
    ensures var (n, outcome) := SendRequest(w, request, timeout, a, decoder); Typed(w, request, n, outcome)
  {
    var w1 := Worker.Run(w, a.before, decoder);
    RunGrows(w, a.before, decoder);
    TryTyped(w1, request, timeout, a, decoder);
    var (n, outcome) := TryRequest(w1, request, timeout, a, decoder);
  }

  /** A request that was queued and then given up is never answered to its caller, whatever follows. */
  lemma GivenUpForGood(w: Worker.State, request: ModemRequest, timeout: Option<nat>, a: Attempt, later: Steps,
                       decoder: Decoder)
    requires var (n, outcome) := TryRequest(w, request, timeout, a, decoder); outcome.Err?
    requires |w.commands| < w.capacity
    ensures var (n, outcome) := TryRequest(w, request, timeout, a, decoder);
      Received(Worker.Run(n, later, decoder).machine.replies, |w.accepted|).None?
  {
    var channel := |w.accepted|;
    var (n, outcome) := TryRequest(w, request, timeout, a, decoder);
    ReceivedIsReply(n.machine.replies, channel);
    StepEffects.GoneHearsNothing(n, later, channel, decoder);
    var replies := Worker.Run(n, later, decoder).machine.replies;
    ReceivedIsReply(replies, channel);
    forall i | 0 <= i < |replies| && replies[i].channel == channel ensures !replies[i].delivered {
      if i < |n.machine.replies| { assert replies[i] == n.machine.replies[i]; }
    }
  }

  /** The parts are answered in the order of the message, on channels taken in that order. */
  predicate InSequence(w: Worker.State, parts: seq<Part>, requests: seq<ModemRequest>, i: nat) {
    && i + |parts| <= |requests|
    && (forall k :: 0 <= k < |parts| ==> IsAnswered(w, parts[k], requests[i + k]))
    && (forall j, k :: 0 <= j < k < |parts| ==> parts[j].channel < parts[k].channel)
  }

  predicate AllSent(parts: seq<Part>) {
    forall k :: 0 <= k < |parts| ==> parts[k].response.SendResult?
  }

  function LastOf(parts: seq<Part>, before: Option<ModemResponse>): Option<ModemResponse> {
    if parts == [] then before else Some(parts[|parts| - 1].response)
  }

  /** How a sending can end. */
  predicate Ends(s: Sending, due: nat, last: Option<ModemResponse>) {
    match s.result
    case Ok((true, response)) => |s.parts| == due && AllSent(s.parts) && response == LastOf(s.parts, last)
    case Ok((false, response)) =>
      && s.parts != [] && AllSent(s.parts[..|s.parts| - 1])
      && response == LastOf(s.parts, last) && response.value.Error?
    case Err(_) => |s.parts| < due && AllSent(s.parts)
  }

  predicate AllSubmissions(requests: seq<ModemRequest>) {
    forall r :: r in requests ==> r.SendSMS?
  }

  lemma ConsEnds(part: Part, more: Sending, due: nat, last: Option<ModemResponse>)
    requires part.response.SendResult? && due > 0 && Ends(more, due - 1, Some(part.response))
    ensures Ends(more.(parts := [part] + more.parts), due, last)
  {
    var parts := [part] + more.parts;
    if more.parts != [] {
      assert parts[..|parts| - 1] == [part] + more.parts[..|more.parts| - 1];
    }
  }

  /** What holds of a sending, begun in `w` at the i-th request. */
  predicate Sound(w: Worker.State, s: Sending, requests: seq<ModemRequest>, i: nat, last: Option<ModemResponse>) {
    && i <= |requests| && Grows(w, s.worker)
    && InSequence(s.worker, s.parts, requests, i)
    && (forall k :: 0 <= k < |s.parts| ==> |w.accepted| <= s.parts[k].channel)
    && Ends(s, |requests| - i, last)
  }

  lemma SoundCons(w: Worker.State, n: Worker.State, part: Part, more: Sending, requests: seq<ModemRequest>, i: nat,
                  last: Option<ModemResponse>)
    requires i < |requests| && Sound(n, more, requests, i + 1, Some(part.response)) && Grows(w, n)
    requires |w.accepted| <= part.channel && IsAnswered(n, part, requests[i]) && part.response.SendResult?
    ensures Sound(w, more.(parts := [part] + more.parts), requests, i, last)
  {
    ConsEnds(part, more, |requests| - i, last);
  }

  lemma SoundStop(w: Worker.State, n: Worker.State, outcome: Result<Part>, requests: seq<ModemRequest>, i: nat,
                  last: Option<ModemResponse>)
    requires i < |requests| && Typed(w, requests[i], n, outcome)
    requires outcome.Ok? ==> outcome.value.response.Error?
    ensures outcome.Err? ==> Sound(w, Sending(n, [], Err(outcome.error)), requests, i, last)
    ensures outcome.Ok? ==>
      Sound(w, Sending(n, [outcome.value], Ok((false, Some(outcome.value.response)))), requests, i, last)
  {
  }

  /**
   Parts go out in order, stop at the first error, and are each answered with a reference until
   then; the response returned is that of the last part answered.
   */
  lemma {:induction false} PartsInOrder(w: Worker.State, requests: seq<ModemRequest>, i: nat,
                                        last: Option<ModemResponse>, timeout: Option<nat>, world: nat -> Attempt,
                                        decoder: Decoder)
    requires WorkerRuns.Inv(w) && i <= |requests| && AllSubmissions(requests)
    ensures Sound(w, SendFrom(w, requests, i, last, timeout, world, decoder), requests, i, last)
    decreases |requests| - i
  {
    if i < |requests| {
      RequestTyped(w, requests[i], timeout, world(i), decoder);
      var (n, outcome) := SendRequest(w, requests[i], timeout, world(i), decoder);
      if outcome.Ok? && !outcome.value.response.Error? {
        var part := outcome.value;
        assert requests[i] in requests;
        var more := SendFrom(n, requests, i + 1, Some(part.response), timeout, world, decoder);
        PartsInOrder(n, requests, i + 1, Some(part.response), timeout, world, decoder);
        SoundCons(w, n, part, more, requests, i, last);
      } else {
        SoundStop(w, n, outcome, requests, i, last);
      }
    }
  }

  // --- what is stored ---

  predicate IsDone(s: Sending, requests: seq<ModemRequest>) {
    requests != [] && |s.parts| == |requests| && AllSent(s.parts)
  }

  lemma StoredIffDone(s: Sending, requests: seq<ModemRequest>, t: Tables, message: Row)
    requires Ends(s, |requests|, None) && |s.parts| <= |requests|
    ensures IsFaithful(s, requests, t, message, StoreSent(t, message, s.result))
  {
  }

  /**
   A row is stored exactly when the message has parts and each was answered with a reference; the
   row is open and carries the last part's reference. Otherwise the result is the first part's
   error, the sender's own, or that there were no parts. No send failure is ever recorded.
   */
  predicate IsFaithful(s: Sending, requests: seq<ModemRequest>, t: Tables, message: Row, stored: Stored) {
    && stored.failure.None?
    && (IsDone(s, requests) ==>
          var last := s.parts[|s.parts| - 1].response;
          && last.SendResult?
          && stored.tables == InsertMessage(t, message.(reference := Some(last.reference)), false)
          && stored.result == Ok((Some(|t.messages| + 1), last)))
    && (!IsDone(s, requests) ==>
          && stored.tables == t
          && (if requests == [] then stored.result == Err("Missing any valid SendSMS response!")
              else if s.result.Err? then stored.result == Err(s.result.error)
              else s.parts != [] && s.parts[|s.parts| - 1].response.Error?
                   && stored.result == Ok((None, s.parts[|s.parts| - 1].response))))
  }

  /**
   Over any worker run a message is stored if and only if it is sent as a whole. A message of which
   no requests can be made is neither sent nor stored, and its error is returned.
   */
  lemma StoredIffSent(w: Worker.State, created: Result<seq<ModemRequest>>, timeout: Option<nat>,
                      world: nat -> Attempt, decoder: Decoder, t: Tables, message: Row)
    requires WorkerRuns.Inv(w) && (created.Ok? ==> AllSubmissions(created.value))
    ensures var s := SendMessage(w, created, timeout, world, decoder);
      var stored := StoreSent(t, message, s.result);
      match created
      case Ok(requests) => Sound(w, s, requests, 0, None) && IsFaithful(s, requests, t, message, stored)
      case Err(e) => s.worker == w && stored == Stored(t, None, Err(e))
  {
    if created.Ok? {
      PartsInOrder(w, created.value, 0, None, timeout, world, decoder);
      StoredIffDone(SendFrom(w, created.value, 0, None, timeout, world, decoder), created.value, t, message);
    }
  }

  /** `SMSManager::send_sms`: sends a message in parts, and stores it as `StoreSent` says. */
  method SendSms(manager: SMSManager, w: Worker.State, created: Result<seq<ModemRequest>>, timeout: Option<nat>,
                 world: nat -> Attempt, decoder: Decoder, message: Row)
    returns (worker: Worker.State, result: Result<(Option<nat>, ModemResponse)>)
    modifies manager.database
    ensures var s := SendMessage(w, created, timeout, world, decoder);
      var stored := StoreSent(old(manager.database.Contents()), message, s.result);
      worker == s.worker && manager.database.Contents() == stored.tables && result == stored.result
  {
    var sent;
    worker, sent := SendAllParts(w, created, timeout, world, decoder);
    result := manager.Store(message, sent);
  }
}
