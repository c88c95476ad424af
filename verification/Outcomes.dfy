/** What becomes of an exchange of the io_uring worker: exactly which events end it and how, exactly which make the
    server answer by itself, that every byte counts, and that an exchange nobody disturbs runs to its end. */
module Outcomes {
  import opened Common
  import opened Http
  import opened Exchange

  // ---------------------------------------------------------------- runs from any state

  ghost function Next(setup: Setup, e: Exchange, event: Event): Exchange {
    if InOrder(e) then Step(setup, e, event) else e
  }

  /** What a sequence of events makes of a connection. */
  ghost function From(setup: Setup, e: Exchange, events: seq<Event>): Exchange
    decreases |events|
  {
    if events == [] then e else From(setup, Next(setup, e, events[0]), events[1..])
  }

  lemma {:induction false} FromThen(setup: Setup, e: Exchange, first: seq<Event>, next: seq<Event>)
    ensures From(setup, e, first + next) == From(setup, From(setup, e, first), next)
    decreases |first|
  {
    if first == [] {
      assert first + next == next;
    } else {
      assert (first + next)[1..] == first[1..] + next;
      FromThen(setup, Next(setup, e, first[0]), first[1..], next);
    }
  }

  lemma RunOne(setup: Setup, events: seq<Event>, event: Event)
    ensures Run(setup, events + [event]) == Step(setup, Run(setup, events), event)
    ensures Run(setup, events + [event]) == Next(setup, Run(setup, events), event)
    ensures InOrder(Run(setup, events))
  {
    assert (events + [event])[..|events|] == events;
  }

  lemma {:induction false} RunThen(setup: Setup, events: seq<Event>, more: seq<Event>)
    ensures Run(setup, events + more) == From(setup, Run(setup, events), more)
    ensures InOrder(Run(setup, events))
    decreases |more|
  {
    if more == [] {
      assert events + more == events;
    } else {
      var longer := events + [more[0]];
      assert longer + more[1..] == events + more;
      RunOne(setup, events, more[0]);
      RunThen(setup, longer, more[1..]);
    }
  }

  // ---------------------------------------------------------------- how an exchange ends

  /** The failures that a client is dropped for. */
  ghost predicate Fatal(setup: Setup, e: Exchange, event: Event) {
    Possible(e.stage, event) &&
    match event
    case Received(result, data, plan) =>
      || (result <= 0 && result !in [-EAGAIN, -EINTR, -ENOBUFS])
      || (result > 0 && plan.NoListener? && PendingOk(e.stage.pending)
          && Ingest(setup.maxRead, e.stage.buffer, e.stage.pending, data).Ready?)
    case Sent(result, ready) =>
      || (result <= 0 && result !in [-EAGAIN, -EINTR])
      || result > |e.out| - e.sent
      || (result == |e.out| - e.sent && e.stage.Streaming? && ready && e.stage.stream == Stream([], true))
    case Responded(result, data) =>
      && e.log.fromUpstream != ""
      && (|| e.timedOut
          || (result < 0 && result !in [-EAGAIN, -EINTR, -ENOBUFS])
          || (result > 0 && |data| > setup.maxWrite))
    case Pumped(ready) => ready && e.stage.stream == Stream([], true)
    case _ => false
  }

  /** The ends of a response: its last byte is accepted and there is no more, or the upstream has ended it. */
  ghost predicate Final(e: Exchange, event: Event) {
    Possible(e.stage, event) &&
    match event
    case Sent(result, ready) =>
      && 0 < result == |e.out| - e.sent
      && (e.stage.Replying? || (e.stage.Streaming? && ready && e.stage.stream == Stream([], false)))
    case Responded(result, _) => result == 0 && !e.timedOut
    case Pumped(ready) => ready && e.stage.stream == Stream([], false)
    case _ => false
  }

  lemma ReceivedEnds(setup: Setup, e: Exchange, event: Event)
    requires Safe(setup, e) && event.Received? && Possible(e.stage, event)
    ensures Step(setup, e, event).stage == Closed(Dropped) <==> Fatal(setup, e, event)
    ensures Step(setup, e, event).stage != Closed(Finished)
  {
    if event.result > 0 {
      IntakeEnds(setup, e, Ingest(setup.maxRead, e.stage.buffer, e.stage.pending, event.data), event.plan);
    }
  }

  lemma IntakeEnds(setup: Setup, e: Exchange, intake: Intake, plan: Plan)
    ensures OnIntake(setup, e, intake, plan).stage == Closed(Dropped) <==> intake.Ready? && plan.NoListener?
    ensures OnIntake(setup, e, intake, plan).stage != Closed(Finished)
  {
  }

  lemma SendEnds(setup: Setup, e: Exchange, event: Event)
    requires Safe(setup, e) && event.Sent? && Possible(e.stage, event)
    ensures Step(setup, e, event).stage == Closed(Dropped) <==> Fatal(setup, e, event)
    ensures Step(setup, e, event).stage == Closed(Finished) <==> Final(e, event)
  {
  }

  lemma ResponseEnds(setup: Setup, e: Exchange, event: Event)
    requires Safe(setup, e) && (event.Responded? || event.Pumped?) && Possible(e.stage, event)
    ensures Step(setup, e, event).stage == Closed(Dropped) <==> Fatal(setup, e, event)
    ensures Step(setup, e, event).stage == Closed(Finished) <==> Final(e, event)
  {
  }

  lemma OtherEnds(setup: Setup, e: Exchange, event: Event)
    requires Safe(setup, e) && Possible(e.stage, event) && !e.stage.Closed?
    requires event.Resolved? || event.Connected? || event.RequestSent? || event.Expired?
    ensures Step(setup, e, event).stage == Closed(Dropped) <==> Fatal(setup, e, event)
    ensures Step(setup, e, event).stage == Closed(Finished) <==> Final(e, event)
  {
  }

  lemma ClosedStays(setup: Setup, e: Exchange, event: Event)
    requires Safe(setup, e) && e.stage.Closed?
    ensures Step(setup, e, event) == e
    ensures !Fatal(setup, e, event) && !Final(e, event)
  {
  }

  lemma StepEnds(setup: Setup, e: Exchange, event: Event)
    requires Safe(setup, e)
    ensures Step(setup, e, event).stage == Closed(Dropped) <==>
              e.stage == Closed(Dropped) || Fatal(setup, e, event)
    ensures Step(setup, e, event).stage == Closed(Finished) <==>
              e.stage == Closed(Finished) || Final(e, event)
  {
    if e.stage.Closed? {
      ClosedStays(setup, e, event);
    } else if Possible(e.stage, event) {
      if event.Received? {
        ReceivedEnds(setup, e, event);
      } else if event.Sent? {
        SendEnds(setup, e, event);
      } else if event.Responded? || event.Pumped? {
        ResponseEnds(setup, e, event);
      } else {
        OtherEnds(setup, e, event);
      }
    }
  }

  ghost predicate FatalAt(setup: Setup, events: seq<Event>, k: nat) {
    k < |events| && Fatal(setup, Run(setup, events[..k]), events[k])
  }

  ghost predicate FinalAt(setup: Setup, events: seq<Event>, k: nat) {
    k < |events| && Final(Run(setup, events[..k]), events[k])
  }

  lemma SameFront(setup: Setup, events: seq<Event>, k: nat)
    requires events != [] && k < |events| - 1
    ensures var front := events[..|events| - 1];
            (FatalAt(setup, events, k) <==> FatalAt(setup, front, k))
              && (FinalAt(setup, events, k) <==> FinalAt(setup, front, k))
  {
    assert events[..|events| - 1][..k] == events[..k];
  }

  lemma LastStepEnds(setup: Setup, events: seq<Event>)
    requires events != []
    ensures var front := events[..|events| - 1];
            && (Run(setup, events).stage == Closed(Dropped) <==>
                  Run(setup, front).stage == Closed(Dropped) || FatalAt(setup, events, |events| - 1))
            && (Run(setup, events).stage == Closed(Finished) <==>
                  Run(setup, front).stage == Closed(Finished) || FinalAt(setup, events, |events| - 1))
  {
    StepEnds(setup, Run(setup, events[..|events| - 1]), events[|events| - 1]);
  }

  ghost predicate HasFatal(setup: Setup, events: seq<Event>) { exists k: nat :: FatalAt(setup, events, k) }

  ghost predicate HasFinal(setup: Setup, events: seq<Event>) { exists k: nat :: FinalAt(setup, events, k) }

  lemma EarlierFatal(setup: Setup, events: seq<Event>, k: nat)
    requires events != []
    ensures FatalAt(setup, events[..|events| - 1], k) ==> HasFatal(setup, events)
    ensures FatalAt(setup, events, k) ==> k == |events| - 1 || HasFatal(setup, events[..|events| - 1])
  {
    if k < |events| - 1 {
      SameFront(setup, events, k);
    }
  }

  lemma FatalHistory(setup: Setup, events: seq<Event>)
    requires events != []
    ensures HasFatal(setup, events) <==>
              HasFatal(setup, events[..|events| - 1]) || FatalAt(setup, events, |events| - 1)
  {
    if HasFatal(setup, events[..|events| - 1]) {
      var k: nat :| FatalAt(setup, events[..|events| - 1], k);
      EarlierFatal(setup, events, k);
    }
    if HasFatal(setup, events) {
      var k: nat :| FatalAt(setup, events, k);
      EarlierFatal(setup, events, k);
    }
  }

  lemma EarlierFinal(setup: Setup, events: seq<Event>, k: nat)
    requires events != []
    ensures FinalAt(setup, events[..|events| - 1], k) ==> HasFinal(setup, events)
    ensures FinalAt(setup, events, k) ==> k == |events| - 1 || HasFinal(setup, events[..|events| - 1])
  {
    if k < |events| - 1 {
      SameFront(setup, events, k);
    }
  }

  lemma FinalHistory(setup: Setup, events: seq<Event>)
    requires events != []
    ensures HasFinal(setup, events) <==>
              HasFinal(setup, events[..|events| - 1]) || FinalAt(setup, events, |events| - 1)
  {
    if HasFinal(setup, events[..|events| - 1]) {
      var k: nat :| FinalAt(setup, events[..|events| - 1], k);
      EarlierFinal(setup, events, k);
    }
    if HasFinal(setup, events) {
      var k: nat :| FinalAt(setup, events, k);
      EarlierFinal(setup, events, k);
    }
  }

  /** Over every run: a client is dropped exactly if one of the listed failures has happened, and it is served to the
      end exactly if its response has come to its end. */
  lemma {:induction false} EndsExactly(setup: Setup, events: seq<Event>)
    ensures Run(setup, events).stage == Closed(Dropped) <==> HasFatal(setup, events)
    ensures Run(setup, events).stage == Closed(Finished) <==> HasFinal(setup, events)
  {
    if events == [] {
      assert Run(setup, events) == START;
    } else {
      EndsExactly(setup, events[..|events| - 1]);
      FatalHistory(setup, events);
      FinalHistory(setup, events);
      LastStepEnds(setup, events);
    }
  }

  // ---------------------------------------------------------------- what the server answers

  /** The notice that an event makes the server send, if any. */
  ghost function Due(setup: Setup, e: Exchange, event: Event): Option<Notice>
    requires Safe(setup, e) && Possible(e.stage, event)
  {
    match event
    case Received(result, data, plan) =>
      if result <= 0 then None
      else DueOnIntake(setup, Ingest(setup.maxRead, e.stage.buffer, e.stage.pending, data), plan)
    case Resolved(answer, failures) =>
      if answer == None then Some(ResolutionFailed)
      else if answer == Some([]) then Some(NoAddress)
      else if failures >= |answer.value| then Some(ConnectionFailed) else None
    case Connected(result, failures) =>
      if e.timedOut then Some(TimedOut(ConnectingPhase))
      else if result < 0 && failures >= |e.stage.rest| then Some(ConnectionFailed) else None
    case RequestSent(result) =>
      if e.timedOut then Some(TimedOut(WritingRequest))
      else if result in [-EAGAIN, -EINTR] then None
      else if result <= 0 then Some(WriteFailed)
      else if e.requestSent + result > |e.request| then Some(InvalidWrite) else None
    case Responded(result, data) =>
      if e.log.fromUpstream != "" then None
      else if e.timedOut then Some(TimedOut(ReadingResponse))
      else if result in [-EAGAIN, -EINTR, -ENOBUFS, 0] then None
      else if result < 0 then Some(ResponseFailed)
      else if |data| > setup.maxWrite then Some(ChunkTooLarge) else None
    case Expired => if e.stage.Resolving? then Some(TimedOut(ResolvingPhase)) else None
    case _ => None
  }

  ghost function DueOnIntake(setup: Setup, intake: Intake, plan: Plan): Option<Notice> {
    match intake
    case More(_, _) => None
    case Rejected(refusal) => Some(Refused(refusal))
    case Ready(head, body) => DueFor(setup, head, body, plan)
  }

  /** The same for a whole request and what routing says of it. */
  ghost function DueFor(setup: Setup, head: RequestHead, body: Bytes, plan: Plan): Option<Notice> {
    match plan
    case Respond(status, text) =>
      Some(if |setup.render(Configured(status, text))| <= setup.maxWrite then Configured(status, text)
           else ResponseTooLarge)
    case NoUpstream => Some(BadUpstream)
    case Forward(url, resolverRuns) =>
      var request := setup.forward(url, head, body);
      if request == None then Some(BadUpstream)
      else if |request.value| > setup.maxRead then Some(UpstreamRequestTooLarge)
      else if resolverRuns then None else Some(ResolutionFailed)
    case _ => None
  }

  /** The response that begins with an event: a notice, what routing serves, or the upstream's. */
  ghost function Begins(setup: Setup, e: Exchange, event: Event): seq<Source>
    requires Safe(setup, e)
  {
    if !Possible(e.stage, event) then []
    else if Due(setup, e, event).Some? then [Local(setup.render(Due(setup, e, event).value))]
    else if event.Received? && event.result > 0 && event.plan.Serve?
      && Ingest(setup.maxRead, e.stage.buffer, e.stage.pending, event.data).Ready?
    then
      match event.plan.stream
      case None => [Local(event.plan.head)]
      case Some(stream) => [File(event.plan.head + Flatten(stream.chunks))]
    else if e.log.fromUpstream == "" && UpstreamChunk(setup, e, event) != "" then [FromUpstream]
    else []
  }

  /** The bytes that an event brings from the upstream, if they are in time and not too many at once. */
  ghost function UpstreamChunk(setup: Setup, e: Exchange, event: Event): Bytes {
    if event.Responded? && e.stage.Responding? && !e.timedOut && 0 < event.result == |event.data| <= setup.maxWrite
    then event.data else ""
  }

  lemma IntakeBegins(setup: Setup, e: Exchange, intake: Intake, plan: Plan)
    requires e.log.fromUpstream == ""
    ensures OnIntake(setup, e, intake, plan).log.sources == e.log.sources +
              if DueOnIntake(setup, intake, plan).Some?
              then [Local(setup.render(DueOnIntake(setup, intake, plan).value))]
              else if !intake.Ready? || !plan.Serve? then []
              else if plan.stream == None then [Local(plan.head)]
              else [File(plan.head + Flatten(plan.stream.value.chunks))]
  {
    assert e.log.sources + [] == e.log.sources;
  }

  lemma ReceivedBegins(setup: Setup, e: Exchange, event: Event)
    requires Safe(setup, e) && event.Received? && Possible(e.stage, event)
    ensures Step(setup, e, event).log.sources == e.log.sources + Begins(setup, e, event)
  {
    if event.result > 0 {
      IntakeBegins(setup, e, Ingest(setup.maxRead, e.stage.buffer, e.stage.pending, event.data), event.plan);
    }
  }

  lemma RespondedBegins(setup: Setup, e: Exchange, event: Event)
    requires Safe(setup, e) && event.Responded? && Possible(e.stage, event)
    ensures Step(setup, e, event).log.sources == e.log.sources + Begins(setup, e, event)
  {
    assert e.log.sources + [] == e.log.sources;
  }

  lemma SentBegins(setup: Setup, e: Exchange, event: Event)
    requires Safe(setup, e) && (event.Sent? || event.Pumped?) && Possible(e.stage, event)
    ensures Step(setup, e, event).log.sources == e.log.sources + Begins(setup, e, event)
  {
    assert e.log.sources + [] == e.log.sources;
  }

  lemma AddressBegins(setup: Setup, e: Exchange, event: Event)
    requires Safe(setup, e) && (event.Resolved? || event.Connected?) && Possible(e.stage, event)
    ensures Step(setup, e, event).log.sources == e.log.sources + Begins(setup, e, event)
  {
    assert e.log.sources + [] == e.log.sources;
  }

  lemma OtherBegins(setup: Setup, e: Exchange, event: Event)
    requires Safe(setup, e) && (event.RequestSent? || event.Expired?) && Possible(e.stage, event)
    ensures Step(setup, e, event).log.sources == e.log.sources + Begins(setup, e, event)
  {
    assert e.log.sources + [] == e.log.sources;
  }

  /** Over every run: a response begins exactly with the events listed above, and is the one listed. */
  lemma ResponsesExactly(setup: Setup, events: seq<Event>, event: Event)
    ensures Run(setup, events + [event]).log.sources ==
            Run(setup, events).log.sources + Begins(setup, Run(setup, events), event)
  {
    var e := Run(setup, events);
    RunOne(setup, events, event);
    if !Possible(e.stage, event) {
      assert e.log.sources + [] == e.log.sources;
    } else if event.Received? {
      ReceivedBegins(setup, e, event);
    } else if event.Responded? {
      RespondedBegins(setup, e, event);
    } else if event.Sent? || event.Pumped? {
      SentBegins(setup, e, event);
    } else if event.Resolved? || event.Connected? {
      AddressBegins(setup, e, event);
    } else {
      OtherBegins(setup, e, event);
    }
  }

  /** Over every run: an upstream operation is late from the timeout that strikes it until its completion comes; waiting
      for a name is the only phase that a timeout ends at once. */
  lemma LateExactly(setup: Setup, events: seq<Event>, event: Event)
    ensures var e, after := Run(setup, events), Run(setup, events + [event]);
            && (after.timedOut <==>
                  if event.Expired? then e.stage.Connecting? || e.stage.Requesting? || e.stage.Responding?
                  else e.timedOut && !Possible(e.stage, event))
            && (event.Expired? && !e.stage.Resolving? ==> after == e.(timedOut := after.timedOut))
  {
    RunOne(setup, events, event);
    StepIsLate(setup, Run(setup, events), event);
  }

  lemma StepIsLate(setup: Setup, e: Exchange, event: Event)
    requires Safe(setup, e)
    ensures var after := Step(setup, e, event);
            && (after.timedOut <==>
                  if event.Expired? then e.stage.Connecting? || e.stage.Requesting? || e.stage.Responding?
                  else e.timedOut && !Possible(e.stage, event))
            && (event.Expired? && !e.stage.Resolving? ==> after == e.(timedOut := after.timedOut))
  {
    if !event.Expired? && Possible(e.stage, event) {
      if event.Received? {
        ReceivedInTime(setup, e, event);
      } else if event.Sent? || event.Pumped? {
        SentInTime(setup, e, event);
      } else {
        CompletionEndsLateness(setup, e, event);
      }
    }
  }

  lemma ReceivedInTime(setup: Setup, e: Exchange, event: Event)
    requires Safe(setup, e) && event.Received? && Possible(e.stage, event)
    ensures !Step(setup, e, event).timedOut
  {
    if event.result > 0 {
      IntakeInTime(setup, e, Ingest(setup.maxRead, e.stage.buffer, e.stage.pending, event.data), event.plan);
    }
  }

  lemma IntakeInTime(setup: Setup, e: Exchange, intake: Intake, plan: Plan)
    requires !e.timedOut
    ensures !OnIntake(setup, e, intake, plan).timedOut
  {
  }

  lemma SentInTime(setup: Setup, e: Exchange, event: Event)
    requires Safe(setup, e) && (event.Sent? || event.Pumped?) && Possible(e.stage, event)
    ensures !Step(setup, e, event).timedOut
  {
  }

  lemma CompletionEndsLateness(setup: Setup, e: Exchange, event: Event)
    requires Safe(setup, e) && Possible(e.stage, event)
    requires event.Resolved? || event.Connected? || event.RequestSent? || event.Responded?
    ensures !Step(setup, e, event).timedOut
  {
  }

  // ---------------------------------------------------------------- every byte counts

  /** How many bytes of the response, or of the request, an event reports as accepted. */
  ghost function Accepted(e: Exchange, event: Event): nat {
    if event.Sent? && IsSending(e.stage) && 0 < event.result <= |e.out| - e.sent then event.result else 0
  }

  ghost function Forwarded(e: Exchange, event: Event): nat {
    if event.RequestSent? && e.stage.Requesting? && !e.timedOut && 0 < event.result <= |e.request| - e.requestSent
    then event.result else 0
  }

  ghost predicate Counted(setup: Setup, e: Exchange, event: Event, after: Exchange) {
    && after.log.fromUpstream == e.log.fromUpstream + UpstreamChunk(setup, e, event)
    && |after.log.toClient| == |e.log.toClient| + Accepted(e, event)
    && after.requestSent == e.requestSent + Forwarded(e, event)
  }

  lemma NothingCounts(setup: Setup, e: Exchange, event: Event, after: Exchange)
    requires after.log.fromUpstream == e.log.fromUpstream && after.log.toClient == e.log.toClient
    requires after.requestSent == e.requestSent
    requires UpstreamChunk(setup, e, event) == "" && Accepted(e, event) == 0 && Forwarded(e, event) == 0
    ensures Counted(setup, e, event, after)
  {
    assert e.log.fromUpstream + "" == e.log.fromUpstream;
  }

  lemma ReceivedCounts(setup: Setup, e: Exchange, event: Event)
    requires Safe(setup, e) && event.Received? && Possible(e.stage, event)
    ensures Counted(setup, e, event, Step(setup, e, event))
  {
    if event.result > 0 {
      IntakeCounts(setup, e, Ingest(setup.maxRead, e.stage.buffer, e.stage.pending, event.data), event.plan);
    }
    NothingCounts(setup, e, event, Step(setup, e, event));
  }

  lemma IntakeCounts(setup: Setup, e: Exchange, intake: Intake, plan: Plan)
    requires e.requestSent == 0
    ensures var after := OnIntake(setup, e, intake, plan);
            && after.log.fromUpstream == e.log.fromUpstream && after.log.toClient == e.log.toClient
            && after.requestSent == e.requestSent
  {
  }

  lemma SendCounts(setup: Setup, e: Exchange, event: Event)
    requires Safe(setup, e) && event.Sent? && IsSending(e.stage)
    ensures Counted(setup, e, event, Step(setup, e, event))
  {
    if Accepted(e, event) == 0 {
      NothingCounts(setup, e, event, Step(setup, e, event));
    } else {
      assert e.log.fromUpstream + "" == e.log.fromUpstream;
    }
  }

  lemma RequestCounts(setup: Setup, e: Exchange, event: Event)
    requires Safe(setup, e) && event.RequestSent? && e.stage.Requesting?
    ensures Counted(setup, e, event, Step(setup, e, event))
  {
    assert e.log.fromUpstream + "" == e.log.fromUpstream;
  }

  lemma ResponseCounts(setup: Setup, e: Exchange, event: Event)
    requires Safe(setup, e) && event.Responded? && e.stage.Responding?
    ensures Possible(e.stage, event) ==> Counted(setup, e, event, Step(setup, e, event))
  {
    assert e.log.fromUpstream + "" == e.log.fromUpstream;
  }

  lemma OtherCounts(setup: Setup, e: Exchange, event: Event)
    requires Safe(setup, e)
    requires !event.Received? && !event.Sent? && !event.RequestSent? && !event.Responded?
    ensures Counted(setup, e, event, Step(setup, e, event))
  {
    NothingCounts(setup, e, event, Step(setup, e, event));
  }

  lemma StepCounts(setup: Setup, e: Exchange, event: Event)
    requires Safe(setup, e)
    ensures Counted(setup, e, event, Step(setup, e, event))
  {
    if !Possible(e.stage, event) {
      NothingCounts(setup, e, event, e);
    } else if event.Received? {
      ReceivedCounts(setup, e, event);
    } else if event.Sent? {
      SendCounts(setup, e, event);
    } else if event.RequestSent? {
      RequestCounts(setup, e, event);
    } else if event.Responded? {
      ResponseCounts(setup, e, event);
    } else {
      OtherCounts(setup, e, event);
    }
  }

  /** What the upstream has delivered in a run, and how many bytes the client and the upstream have accepted. */
  ghost function Delivered(setup: Setup, events: seq<Event>): Bytes {
    if events == [] then ""
    else
      var front := events[..|events| - 1];
      Delivered(setup, front) + UpstreamChunk(setup, Run(setup, front), events[|events| - 1])
  }

  ghost function ClientAccepted(setup: Setup, events: seq<Event>): nat {
    if events == [] then 0
    else
      var front := events[..|events| - 1];
      ClientAccepted(setup, front) + Accepted(Run(setup, front), events[|events| - 1])
  }

  ghost function UpstreamAccepted(setup: Setup, events: seq<Event>): nat {
    if events == [] then 0
    else
      var front := events[..|events| - 1];
      UpstreamAccepted(setup, front) + Forwarded(Run(setup, front), events[|events| - 1])
  }

  lemma LastStepCounts(setup: Setup, events: seq<Event>)
    requires events != []
    ensures var front, event := events[..|events| - 1], events[|events| - 1];
            Counted(setup, Run(setup, front), event, Run(setup, events))
  {
    StepCounts(setup, Run(setup, events[..|events| - 1]), events[|events| - 1]);
  }

  /** Over every run: all that the upstream delivers in time is taken over for the client; the client has exactly as
      many bytes as its socket has accepted, and the upstream as many of the request. */
  lemma {:induction false} EveryByteCounts(setup: Setup, events: seq<Event>)
    ensures Run(setup, events).log.fromUpstream == Delivered(setup, events)
    ensures |Run(setup, events).log.toClient| == ClientAccepted(setup, events)
    ensures Run(setup, events).requestSent == UpstreamAccepted(setup, events)
  {
    if events == [] {
      assert Run(setup, events) == START;
    } else {
      EveryByteCounts(setup, events[..|events| - 1]);
      LastStepCounts(setup, events);
    }
  }
}
