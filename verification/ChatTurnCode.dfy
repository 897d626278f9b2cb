/** The turn's loop and its bookkeeping, on mutable fields. */
module ChatTurnCode {
  import opened Options
  import opened Transcript
  import opened ChatTurn

  class Turn {
    const prompt: string
    const initial: seq<Message>
    const traced: bool
    const compressible: bool
    const shapeOf: string -> Shape

    var messages: seq<Message>
    var rounds: nat
    var text: string
    var steps: seq<Step>
    var traceTurns: seq<TraceTurn>
    var traceTools: seq<string>
    var llmCallStarted: bool
    var turnTraceRecorded: bool
    var finishedSummary: Option<string>

    var stream: seq<Event>
    var history: seq<RunRecord>
    var traces: seq<TraceRecord>
    var look: Look

    ghost var finishes: seq<(string, string)>  // the calls that finished the turn, with their summaries
    ghost var left: bool  // the consumer closed the generator, or the task was cancelled
    ghost var leftAtContext: bool  // it was at the context event of an answer that it left
    ghost var calls: seq<ModelCall>
    ghost var answers: seq<Completion>
    ghost var asked: seq<string>  // the ids of all the calls in them
    ghost var logged: nat
    ghost var softened: seq<seq<Message>>   // the messages a soft compression found
    ghost var shortened: seq<seq<Message>>  // and what it left of them

    ghost function Kept(): Books
      reads this`turnTraceRecorded, this`traces, this`traceTurns, this`traceTools, this`text, this`answers, this`logged, this`history
      reads this`leftAtContext
    {
      Books(traced, turnTraceRecorded, traces, traceTurns, traceTools, text, answers, logged, history, leftAtContext)
    }

    ghost predicate CallsKept()
      reads this`softened, this`shortened, this`calls, this`rounds
    {
      CallsKeptOk(initial, softened, shortened, calls, rounds)
    }

    twostate lemma CallsStay()
      requires old(CallsKept()) && unchanged(this`softened, this`shortened, this`calls, this`rounds)
      ensures CallsKept()
    {
    }

    /** Only a consumer that left, or a cancelled task, aborts. */
    ghost predicate Accounted<T>(r: Outcome<T>)
      reads this`left
    {
      r.Raise? && r.exc.Aborted? ==> left
    }

    ghost predicate TraceQuiet()
      reads this`turnTraceRecorded, this`traces, this`traceTurns, this`traceTools, this`text, this`answers, this`logged, this`history
      reads this`leftAtContext
    {
      QuietOk(Kept())
    }

    ghost predicate Telling()
      reads this`stream, this`text, this`steps
    {
      TellingOk(stream, text, steps)
    }

    ghost predicate BetweenTools()
      reads this`stream, this`text, this`steps
    {
      BetweenOk(stream, text, steps)
    }

    ghost predicate Sendable()
      reads this`softened, this`messages
    {
      SendableOk(initial, softened, messages)
    }

    ghost predicate Recorded(status: Status)
      reads this`turnTraceRecorded, this`traces, this`traceTurns, this`traceTools, this`text, this`answers, this`logged, this`history, this`steps
      reads this`look, this`leftAtContext
    {
      RecordedOk(Kept(), status, steps, look.Pressed?)
    }

    ghost predicate Closed()
      reads this`turnTraceRecorded, this`traces, this`traceTurns, this`traceTools, this`text, this`answers, this`logged, this`history, this`steps
      reads this`look, this`leftAtContext, this`stream
    {
      ClosedOk(Kept(), steps, look.Pressed?, stream)
    }

    /** Closed with no tool left open: how a turn ends that returns. */
    ghost predicate Shut()
      reads this`turnTraceRecorded, this`traces, this`traceTurns, this`traceTools, this`text, this`answers, this`logged, this`history, this`steps
      reads this`look, this`leftAtContext, this`stream
    {
      Closed() && Read(stream).open.None?
    }

    ghost predicate Ran(ids: seq<string>)
      reads this`text, this`steps, this`traceTools
    {
      RanOk(ids, text, steps, traceTools)
    }

    ghost predicate Over()
      reads this`turnTraceRecorded, this`traces, this`traceTurns, this`traceTools, this`text, this`answers, this`logged, this`history, this`steps
      reads this`look, this`leftAtContext, this`stream, this`asked, this`finishes, this`rounds
    {
      OverOk(Kept(), steps, look.Pressed?, stream, asked, finishes, rounds)
    }

    /** The record has this status, and record and stream say this. */
    ghost predicate Said(status: Status, said: string)
      reads this`history, this`stream
    {
      history != [] && history[0].status == status && history[0].text == said && Read(stream).text == said
    }

    constructor (prompt: string, initial: seq<Message>, traced: bool, compressible: bool, shapeOf: string -> Shape)
      ensures Ready() && Asked() && rounds == 0 && answers == []
      ensures this.prompt == prompt && this.initial == initial && this.traced == traced
    {
      this.prompt, this.initial, this.traced, this.compressible, this.shapeOf := prompt, initial, traced, compressible, shapeOf;
      messages, rounds, text, steps, traceTurns, traceTools := initial, 0, "", [], [], [];
      llmCallStarted, turnTraceRecorded, finishedSummary, finishes := false, false, None, [];
      stream, history, traces, look := [], [], [], Used;
      left, leftAtContext, calls, answers, asked, logged, softened, shortened := false, false, [], [], [], 0, [], [];
    }

    // ---------------------------------------------------------------- the world outside

    /** `cancel_event.is_set()`: Stop may have been pressed meanwhile; it is never taken back. */
    method StopPressed() returns (pressed: bool)
      modifies this`look
      ensures look == (if pressed then Pressed else Unpressed) && (old(look).Pressed? ==> pressed)
    {
      pressed := *;
      pressed := pressed || look.Pressed?;
      look := if pressed then Pressed else Unpressed;
    }

    /** An await on something that may raise. */
    method Await() returns (r: Outcome<()>)
      modifies this`left
      ensures Accounted(r) && (old(left) ==> left)
    {
      r := *;
      left := left || (r.Raise? && r.exc.Aborted?);
    }

    /** An await on work that handles its own failures: only a cancelled task comes out of it. */
    method Pause() returns (r: Outcome<()>)
      modifies this`left
      ensures r.Raise? ==> r.exc.Aborted? && left
    {
      var aborted: bool := *;
      left := left || aborted;
      r := if aborted then Raise(Aborted) else Ok(());
    }

    /** `yield`: the event goes out; the consumer may close the generator there. */
    method Yield(e: Event) returns (r: Outcome<()>)
      modifies this`stream, this`left
      ensures stream == old(stream) + [e] && Read(stream) == After(Read(old(stream)), e)
      ensures r.Raise? ==> r.exc.Aborted? && left
    {
      ReadNext(stream, e);
      stream := stream + [e];
      var closed: bool := *;
      left := left || closed;
      r := if closed then Raise(Aborted) else Ok(());
    }

    /** Any number of events that carry no text and close nothing; `during` names the open tool. */
    method YieldNotes(during: Option<string>) returns (r: Outcome<()>)
      requires Read(stream).terminal.None? && (during.Some? ==> Read(stream).open == during)
      modifies this`stream, this`left
      ensures Read(stream) == Read(old(stream))
      ensures r.Raise? ==> r.exc.Aborted? && left
    {
      var n: int := *;
      for i := 0 to if n < 0 then 0 else n
        invariant Read(stream) == Read(old(stream))
      {
        var progress: bool := *;
        var _ :- Yield(if progress && during.Some? then ToolProgress(during.value) else Note);
      }
      return Ok(());
    }

    /** Whatever a tool does, ending in its result. */
    method Work() returns (r: Outcome<string>)
      modifies this`left
      ensures Accounted(r) && (old(left) ==> left)
    {
      r := *;
      left := left || (r.Raise? && r.exc.Aborted?);
    }

    /** `stream_round`: drafts, then the model's completion, or None when Stop cut it short. */
    method StreamRound() returns (r: Outcome<Option<Completion>>)
      requires Read(stream).terminal.None? && CallsKept() && Sendable() && 1 <= rounds
      requires calls != [] && calls[|calls| - 1].round == rounds ==> Retry(calls, ModelCall(rounds, messages))
      requires !look.Pressed?
      modifies this`stream, this`calls, this`look, this`left
      ensures Read(stream) == Read(old(stream)) && CallsKept()
      ensures calls == old(calls) + [ModelCall(rounds, messages)]
      ensures Accounted(r) && (r.Ok? ==> (r.value.None? <==> look.Pressed?))
      ensures look == old(look) || (r.Ok? && look.Pressed?)
    {
      CallAppended(calls, ModelCall(rounds, messages));
      AllWellFormedMore(calls, ModelCall(rounds, messages));
      calls := calls + [ModelCall(rounds, messages)];
      var _ :- YieldNotes(None);
      var _ :- Await();
      var answer: Option<Completion> := *;
      look := if answer.None? then Pressed else look;
      return Ok(answer);
    }

    // ---------------------------------------------------------------- records

    ghost predicate Pending(c: Completion)
      reads this`turnTraceRecorded, this`traces, this`traceTurns, this`traceTools, this`text, this`answers, this`logged, this`history
      reads this`leftAtContext
    {
      PendingOk(Kept(), c)
    }

    method Arrive(c: Completion)
      requires TraceQuiet() && Ran(asked)
      modifies this`answers, this`asked, this`llmCallStarted
      ensures Pending(c) && CameIn(old(answers), old(asked), answers, asked, c) && Answering(c)
      ensures !llmCallStarted
    {
      AnswerArrived(traceTurns, answers, c);
      answers, asked := answers + [c], asked + CallIds(c);
      llmCallStarted := false;
    }

    method LeaveAtContext(ghost c: Completion)
      requires Pending(c) && Telling() && left
      modifies this`leftAtContext
      ensures leftAtContext && Interrupted()
    {
      leftAtContext := true;
    }

    /** `_record_llm_turn`, for a call the model answered. */
    method RecordAnswer(c: Completion)
      requires Pending(c) && Answering(c) && finishes == [] && finishedSummary.None?
      modifies this`traceTurns, this`logged
      ensures Noted(c)
    {
      LogAnswer(traceTurns, answers);
      traceTurns := traceTurns + [TurnOf(|traceTurns| + 1, c)];
      logged := logged + 1;
    }

    /** `_record_turn_trace`: at most one trace a turn, and none for a turn nobody traces or
        that was stopped before the model answered anything. */
    method RecordTurnTrace(error: Option<string>)
      requires TraceKeptIn(Kept()) && (turnTraceRecorded || |traceTurns| == logged)
      modifies this`traceTurns, this`llmCallStarted, this`turnTraceRecorded, this`traces
      ensures TraceKeptIn(Kept())
      ensures traced && (traceTurns != [] || error.Some?) ==> traces != []
      ensures old(traces) != [] ==> traces == old(traces) && traceTurns == old(traceTurns)
      ensures traceTurns == old(traceTurns) + if !old(turnTraceRecorded) && traced && error.Some? && error.value != "" && old(llmCallStarted)
                                              then [FailedTurn(|old(traceTurns)| + 1)] else []
      ensures traces != [] ==> traced && (old(traces) != [] || traceTurns != [] || error.Some?)
      ensures turnTraceRecorded || |traceTurns| == logged
      ensures traced && !old(turnTraceRecorded) ==> !llmCallStarted
    {
      if turnTraceRecorded || !traced {
        return;
      }
      if error.Some? && error.value != "" && llmCallStarted {
        LogFailed(traceTurns, answers, logged);
        traceTurns := traceTurns + [FailedTurn(|traceTurns| + 1)];
      }
      llmCallStarted := false;
      if traceTurns == [] && error.None? {
        return;
      }
      turnTraceRecorded := true;
      traces := traces + [TraceOf(traceTurns, traceTools, text)];
    }

    /** `_record_dashboard_run`: every exit but an abandoned one passes through here once. */
    method RecordRun(status: Status, error: Option<string>)
      requires TraceQuiet() && (status.Success? ==> logged > 0) && (status.Failure? ==> error.Some?)
      requires status.Cancelled? <==> look.Pressed?
      modifies this`traceTurns, this`llmCallStarted, this`turnTraceRecorded, this`traces, this`history
      ensures Recorded(status) && history == [RunRecord(status, text, steps)]
    {
      RecordTurnTrace(error);
      history := history + [RunRecord(status, text, steps)];
    }

    /** Stop ends the turn: a record, and no terminal event. */
    method Cancel()
      requires BetweenTools() && TraceQuiet() && look.Pressed? && text == ""
      modifies this`traceTurns, this`llmCallStarted, this`turnTraceRecorded, this`traces, this`history
      ensures Over() && history[0].status.Cancelled? && BetweenTools()
    {
      RecordRun(Cancelled, None);
      CancelledEnding(Kept(), steps, look.Pressed?, stream, asked, finishes, rounds);
    }

    // ---------------------------------------------------------------- shortening the messages

    /** The soft compression before a round. */
    method CompressSoftly(e: Estimate) returns (r: Outcome<()>)
      requires CallsKept() && Sendable() && Read(stream).terminal.None?
      modifies this`messages, this`stream, this`softened, this`shortened, this`left
      ensures CallsKept() && Sendable() && Read(stream) == Read(old(stream)) && Accounted(r)
      ensures if |softened| == |old(softened)| then softened == old(softened) && messages == old(messages)
              else softened == old(softened) + [old(messages)] && shortened == old(shortened) + [messages]
      ensures r.Ok? ==> messages == SoftlyShortened(prompt, compressible, old(messages), e)
      ensures |softened| > |old(softened)| && WellFormed(old(messages)) ==>
                (WellFormed(messages) <==> !CutsInsideToolGroup(old(messages)))
    {
      if !compressible {
        return Ok(());
      }
      var _ :- Await();
      var shorter := TurnCompressed(prompt, messages, e.full, e.summary);
      if shorter.None? {
        return Ok(());
      }
      SoftenedMore(initial, softened, calls, rounds, prompt, messages, e.full, e.summary);
      CutsExactMore(softened, shortened, prompt, messages, e.full, e.summary);
      softened, shortened, messages := softened + [messages], shortened + [shorter.value], shorter.value;
      r := Yield(Note);
    }

    /** A hard compression; false when there was nothing to compress or no way to. */
    method CompressHard(digest: string) returns (r: Outcome<bool>)
      requires Sendable() && Read(stream).terminal.None?
      modifies this`messages, this`stream, this`left
      ensures Sendable() && Read(stream) == Read(old(stream))
      ensures r.Raise? ==> r.exc.Aborted? && left
      ensures r.Ok? ==> messages == HardShortened(compressible, old(messages), digest)
      ensures r.Ok? && r.value ==> |messages| == 1 && messages[0].User?
      ensures r.Ok? && !r.value ==> messages == old(messages) && !(compressible && WithoutSystem(messages) != [])
    {
      if !compressible {
        return Ok(false);
      }
      var _ :- Pause();
      var shorter := HardCompress([System(prompt)] + messages, digest);
      if shorter.None? {
        return Ok(false);
      }
      HardCompressionIsOneUserMessage(prompt, messages, digest);
      messages := WithoutSystem(shorter.value);
      var _ :- Yield(Note);
      return Ok(true);
    }

    /** Before a request: the soft compression, and the hard one if that was not enough. */
    method Shorten(e: Estimate) returns (r: Outcome<()>)
      requires CallsKept() && Sendable() && Read(stream).terminal.None?
      modifies this`messages, this`stream, this`softened, this`shortened, this`left
      ensures CallsKept() && Sendable() && Read(stream) == Read(old(stream)) && Accounted(r)
      ensures r.Ok? ==> messages == Shortened(prompt, compressible, old(messages), e)
    {
      var _ :- CompressSoftly(e);
      if e.tooLong {
        var _ :- CompressHard(e.digest);
      }
      return Ok(());
    }

    // ---------------------------------------------------------------- asking the model

    /** One request, and one more after a hard compression if the first overflowed. */
    method AskModel() returns (r: Outcome<Option<Completion>>, ghost first: Outcome<Option<Completion>>)
      requires CallsKept() && Sendable() && Read(stream).terminal.None? && 1 <= rounds
      requires calls != [] ==> calls[|calls| - 1].round < rounds
      requires !look.Pressed?
      modifies this`messages, this`stream, this`calls, this`llmCallStarted, this`look, this`left
      ensures CallsKept() && Sendable() && Read(stream) == Read(old(stream))
      ensures Accounted(r) && (r.Ok? ==> (r.value.None? <==> look.Pressed?))
      ensures |old(calls)| < |calls| <= |old(calls)| + 2
      ensures calls[|old(calls)|] == ModelCall(rounds, old(messages)) && calls[..|old(calls)|] == old(calls)
      ensures !first.Overflowed() ==> r == first && |calls| == |old(calls)| + 1
      ensures first.Overflowed() && compressible && WithoutSystem(old(messages)) != [] ==>
                (|calls| == |old(calls)| + 2 || (r.Raise? && r.exc.Aborted?))
      ensures r.Ok? ==> calls != [] && calls[|calls| - 1] == ModelCall(rounds, messages)
      ensures llmCallStarted
      ensures look == old(look) || look.Pressed?
    {
      llmCallStarted := true;
      r := StreamRound();
      first := r;
      if r.Overflowed() {
        var retried := AskAgain();
        if retried.Some? {
          r := retried.value;
        }
      }
    }

    method ShortenAndAsk(e: Estimate) returns (r: Outcome<Option<Completion>>)
      requires CallsKept() && Sendable() && BetweenTools() && 1 <= rounds
      requires calls != [] ==> calls[|calls| - 1].round < rounds
      requires look.Unpressed?
      modifies this`messages, this`stream, this`calls, this`softened, this`shortened, this`llmCallStarted, this`look, this`left
      ensures CallsKept() && Sendable() && BetweenTools()
      ensures Accounted(r) && (r.Ok? ==> (r.value.None? <==> look.Pressed?))
      ensures r.Ok? ==> calls != [] && calls[|calls| - 1] == ModelCall(rounds, messages)
      ensures (r.Ok? ==> |calls| > |old(calls)|) && |calls| >= |old(calls)|
      ensures |calls| > |old(calls)| ==> calls[|old(calls)|] == ModelCall(rounds, Shortened(prompt, compressible, old(messages), e))
      ensures !look.Unpressed?
    {
      look := Used;
      var _ :- Shorten(e);
      ghost var first;
      r, first := AskModel();
    }

    /** After an overflow: compress hard and ask once more; None when nothing could be compressed. */
    method AskAgain() returns (r: Option<Outcome<Option<Completion>>>)
      requires CallsKept() && Sendable() && Read(stream).terminal.None? && 1 <= rounds
      requires calls != [] && (|calls| >= 2 ==> calls[|calls| - 2].round < rounds)
      requires !look.Pressed? && llmCallStarted
      modifies this`messages, this`stream, this`calls, this`llmCallStarted, this`look, this`left
      ensures CallsKept() && Sendable() && Read(stream) == Read(old(stream))
      ensures r.Some? ==> Accounted(r.value) && (r.value.Ok? ==> (r.value.value.None? <==> look.Pressed?))
      ensures r.None? ==> calls == old(calls) && !(compressible && WithoutSystem(old(messages)) != [])
      ensures r.Some? ==> (calls == old(calls) + [ModelCall(rounds, messages)]
                           || (calls == old(calls) && r.value.Raise? && r.value.exc.Aborted?))
      ensures r.Some? && r.value.Ok? ==> calls != [] && calls[|calls| - 1] == ModelCall(rounds, messages)
      ensures llmCallStarted
      ensures look == old(look) || look.Pressed?
    {
      var digest: string := *;
      var shortened := CompressHard(digest);
      if shortened.Raise? {
        return Some(Raise(shortened.exc));
      }
      if !shortened.value {
        return None;
      }
      llmCallStarted := true;
      var again := StreamRound();
      return Some(again);
    }

    // ---------------------------------------------------------------- running tools

    /** Tool `id` is open and everything before it has its step. */
    ghost predicate Inside(id: string)
      reads this`stream, this`text, this`steps
    {
      var v := Read(stream);
      !v.broken && v.text == text && v.terminal.None? && v.open == Some(id) && v.ended == StepIds(steps)
    }

    method OpenTool(id: string) returns (r: Outcome<()>)
      requires BetweenTools()
      modifies this`stream, this`left
      ensures Inside(id) && Accounted(r)
    {
      r := Yield(ToolStart(id));
    }

    /** Tool `id` is open and has its step too. */
    ghost predicate Logged(id: string)
      reads this`stream, this`text, this`steps
    {
      var v := Read(stream);
      !v.broken && v.text == text && v.terminal.None? && v.open == Some(id) && v.ended + [id] == StepIds(steps)
    }

    method AddToolStep(id: string)
      requires Inside(id)
      modifies this`steps
      ensures Logged(id) && StepIds(steps) == StepIds(old(steps)) + [id]
    {
      StepIdsNext(steps, ToolStep(id));
      steps := steps + [ToolStep(id)];
    }

    method EndTool(id: string) returns (r: Outcome<()>)
      requires Logged(id)
      modifies this`stream, this`left
      ensures BetweenTools() && Accounted(r)
    {
      r := Yield(ToolEnd(id));
    }

    /** The tool's step, then its end event. */
    method CloseTool(id: string) returns (r: Outcome<()>)
      requires Inside(id)
      modifies this`steps, this`stream, this`left
      ensures Telling() && (r.Ok? ==> BetweenTools()) && Accounted(r)
      ensures StepIds(steps) == StepIds(old(steps)) + [id]
    {
      AddToolStep(id);
      var _ :- YieldNotes(Some(id));
      r := EndTool(id);
    }

    /** A branch that runs straight through: a lookup that may raise, start, work, step, end. */
    method PlainTool(id: string) returns (r: Outcome<()>)
      requires BetweenTools()
      modifies this`steps, this`stream, this`left
      ensures Telling() && (r.Ok? ==> BetweenTools()) && Accounted(r)
      ensures r.Ok? ==> StepIds(steps) == StepIds(old(steps)) + [id]
    {
      var _ :- Await();
      var _ :- OpenTool(id);
      var _ :- Await();
      r := CloseTool(id);
    }

    /** A branch that follows a task and looks at Stop when it is done: true when it was pressed. */
    method WatchedTool(id: string) returns (r: Outcome<bool>)
      requires BetweenTools() && look.Used?
      modifies this`steps, this`stream, this`look, this`left
      ensures Telling() && (r.Ok? ==> BetweenTools()) && Accounted(r)
      ensures r.Ok? ==> look == if r.value then Pressed else Unpressed
      ensures r.Ok? ==> StepIds(steps) == StepIds(old(steps)) + [id]
    {
      var _ :- Await();
      var _ :- OpenTool(id);
      var _ :- YieldNotes(Some(id));
      var _ :- Await();
      var stopped := StopPressed();
      var _ :- CloseTool(id);
      return Ok(stopped);
    }

    /** Only a group tool can finish the turn. */
    function GivenFinish(tc: ToolCall, finish: Option<string>): Option<string> {
      if shapeOf(tc.name).Group? then finish else None
    }

    /** The branch of one tool; `finish` is the summary it finishes the turn with, if it does. True when Stop was pressed while it ran. */
    method RunBranch(tc: ToolCall, finish: Option<string>) returns (r: Outcome<bool>)
      requires BetweenTools()
      requires look.Unpressed?
      modifies this`steps, this`stream, this`look, this`finishedSummary, this`finishes, this`left
      ensures Telling() && (r.Ok? ==> BetweenTools()) && Accounted(r)
      ensures r.Ok? ==> (r.value <==> look.Pressed?) && (shapeOf(tc.name).Plain? <==> look.Used?)
      ensures r.Ok? ==> StepIds(steps) == StepIds(old(steps)) + [tc.id]
      ensures FinishIs(old(finishedSummary), old(finishes), finishedSummary, finishes, tc.id,
                       if r.Ok? && !r.value then GivenFinish(tc, finish) else None)
    {
      look := Used;
      var shape := shapeOf(tc.name);
      if shape.Plain? {
        var _ :- PlainTool(tc.id);
        return Ok(false);
      }
      var stopped :- WatchedTool(tc.id);
      if stopped {
        return Ok(true);
      }
      var _ :- YieldNotes(None);
      if shape.Group? && finish.Some? {
        finishedSummary, finishes := finish, finishes + [(tc.id, finish.value)];
      }
      return Ok(false);
    }

    /** One tool call, from its start event to its tool message. False when Stop ended the turn. */
    method RunTool(tc: ToolCall, finish: Option<string>) returns (r: Outcome<bool>)
      requires BetweenTools() && TraceQuiet() && text == "" && traceTools == StepIds(steps)
      requires look.Unpressed?
      modifies this`messages, this`steps, this`traceTools, this`finishedSummary, this`finishes, this`stream, this`look, this`left
      modifies this`traceTurns, this`llmCallStarted, this`turnTraceRecorded, this`traces, this`history
      ensures r.Ok? ==> BetweenTools()
      ensures r.Ok? && r.value ==> TraceQuiet() && Answered(old(messages), messages, tc.id)
      ensures r.Ok? && r.value ==> Ran(old(StepIds(steps)) + [tc.id])
      ensures r.Ok? && r.value ==>
                FinishIs(old(finishedSummary), old(finishes), finishedSummary, finishes, tc.id, GivenFinish(tc, finish))
      ensures r.Ok? && !r.value ==> Over()
      ensures r.Raise? ==> Thrown(r.exc)
      ensures r.Ok? && r.value ==> !look.Pressed?
    {
      var branch := RunBranch(tc, finish);
      if branch.Raise? {
        QuietIsThrown(branch.exc, Kept(), steps, look.Pressed?, stream, left);
        r := Raise(branch.exc);
      } else if branch.value {
        Cancel();
        r := Ok(false);
      } else {
        var work := Work();
        r := Settle(tc.id, work);
      }
    }

    /** After a tool's branch: what it returned joins the messages, and the tool the trace, unless it raised. */
    method Settle(id: string, work: Outcome<string>) returns (r: Outcome<bool>)
      requires BetweenTools() && TraceQuiet() && Accounted(work)
      modifies this`messages, this`traceTools
      ensures r.Ok? <==> work.Ok?
      ensures r.Ok? ==> r.value && TraceQuiet() && traceTools == old(traceTools) + [id]
      ensures r.Ok? ==> messages == old(messages) + [ToolResult(id, work.value)] && Answered(old(messages), messages, id)
      ensures r.Raise? ==> Thrown(r.exc)
    {
      if work.Raise? {
        QuietIsThrown(work.exc, Kept(), steps, look.Pressed?, stream, left);
        return Raise(work.exc);
      }
      traceTools := traceTools + [id];
      messages := messages + [ToolResult(id, work.value)];
      return Ok(true);
    }

    /** One round of the loop over the calls: a look at Stop, then the tool. */
    method NextCall(tc: ToolCall, finish: Option<string>) returns (r: Outcome<bool>)
      requires BetweenTools() && TraceQuiet() && text == "" && traceTools == StepIds(steps)
      modifies this`messages, this`steps, this`traceTools, this`finishedSummary, this`finishes, this`stream, this`look, this`left
      modifies this`traceTurns, this`llmCallStarted, this`turnTraceRecorded, this`traces, this`history
      ensures r.Ok? ==> BetweenTools()
      ensures r.Ok? && r.value ==> TraceQuiet() && Answered(old(messages), messages, tc.id)
      ensures r.Ok? && r.value ==> Ran(old(StepIds(steps)) + [tc.id])
      ensures r.Ok? && r.value ==>
                FinishIs(old(finishedSummary), old(finishes), finishedSummary, finishes, tc.id, GivenFinish(tc, finish))
      ensures r.Ok? && !r.value ==> Over()
      ensures r.Raise? ==> Thrown(r.exc)
      ensures r.Ok? && r.value ==> !look.Pressed?
    {
      var stopped := StopPressed();
      if stopped {
        Cancel();
        return Ok(false);
      }
      r := RunTool(tc, finish);
    }

    /** The `for tc in msg.tool_calls` loop. False when Stop ended the turn. */
    method RunCalls(ghost head: seq<Message>, asked: Message, cs: seq<ToolCall>) returns (r: Outcome<bool>)
      requires BetweenTools() && TraceQuiet()
      requires text == "" && traceTools == StepIds(steps) && FinishKept(finishedSummary, finishes, [])
      requires asked.Assistant? && asked.calls == Ids(cs) && messages == head + [asked]
      requires WellFormed(initial) && CutClean(softened) ==> WellFormed(head)
      requires !look.Pressed?
      modifies this`messages, this`steps, this`traceTools, this`finishedSummary, this`finishes, this`stream, this`look, this`left
      modifies this`traceTurns, this`llmCallStarted, this`turnTraceRecorded, this`traces, this`history
      ensures r.Ok? ==> BetweenTools()
      ensures r.Ok? && r.value ==> TraceQuiet() && Sendable()
      ensures r.Ok? && r.value ==> Ran(old(StepIds(steps)) + asked.calls) && FinishKept(finishedSummary, finishes, asked.calls)
      ensures r.Ok? && r.value ==> |messages| == |head| + 1 + |cs| && head + [asked] <= messages
      ensures r.Ok? && !r.value ==> Over()
      ensures r.Raise? ==> Thrown(r.exc)
      ensures r.Ok? && r.value ==> !look.Pressed?
    {
      ghost var results: seq<Message> := [];
      for i := 0 to |cs|
        invariant BetweenTools() && TraceQuiet() && !look.Pressed?
        invariant messages == head + ([asked] + results) && Answers(results, asked.calls[..i])
        invariant Ran(old(StepIds(steps)) + asked.calls[..i]) && FinishKept(finishedSummary, finishes, asked.calls[..i])
      {
        ghost var before, was, ended := messages, finishedSummary, finishes;
        var finish: Option<string> := *;
        var goesOn :- NextCall(cs[i], finish);
        if !goesOn {
          return Ok(false);
        }
        CallAnswered(head, asked, results, before, messages, old(StepIds(steps)), i);
        FinishKeptMore(was, ended, finishedSummary, finishes, asked.calls[..i], asked.calls[i], GivenFinish(cs[i], finish));
        results := results + [messages[|before|]];
      }
      assert asked.calls[..|cs|] == asked.calls;
      if WellFormed(head) { AnsweredRound(head, asked, results); }
      return Ok(true);
    }

    // ---------------------------------------------------------------- ending the turn

    ghost predicate Interrupted()
      reads this`turnTraceRecorded, this`traces, this`traceTurns, this`traceTools, this`text, this`answers, this`logged, this`history, this`steps
      reads this`look, this`leftAtContext, this`stream
    {
      InterruptedOk(Kept(), steps, look.Pressed?, stream)
    }

    /** The record, then the terminal event. */
    method Conclude(status: Status, error: Option<string>) returns (r: Outcome<()>)
      requires TraceQuiet() && Telling() && !status.Cancelled? && (status.Failure? <==> error.Some?)
      requires status.Success? ==> logged > 0 && Read(stream).open.None?
      requires !look.Pressed?
      modifies this`stream, this`traceTurns, this`llmCallStarted, this`turnTraceRecorded, this`traces, this`history, this`left
      ensures Closed() && Interrupted() && Read(stream).open == Read(old(stream)).open && Said(status, text)
      ensures r.Raise? ==> r.exc.Aborted? && left
      ensures stream == old(stream) + [if status.Success? then Done else Error]
    {
      var last := if status.Success? then Done else Error;
      RecordRun(status, error);
      r := Announce(last);
    }

    /** The terminal event of a turn that is recorded. */
    method Announce(last: Event) returns (r: Outcome<()>)
      requires history != [] && Recorded(history[0].status) && TerminalOf(history[0].status) == Some(last)
      requires Telling() && (last.Done? ==> Read(stream).open.None?)
      modifies this`stream, this`left
      ensures Closed() && Interrupted() && Read(stream).open == Read(old(stream)).open && Said(old(history[0].status), text)
      ensures r.Raise? ==> r.exc.Aborted? && left
      ensures stream == old(stream) + [last]
    {
      StreamEnds(stream, last, text, steps);
      r := Yield(last);
      ClosedIsInterrupted(Kept(), steps, look.Pressed?, stream);
    }

    /** Text that goes both into the answer and out on the stream. */
    method Say(content: string) returns (r: Outcome<()>)
      requires BetweenTools() && TraceQuiet()
      modifies this`text, this`stream, this`left
      ensures text == old(text) + content
      ensures BetweenTools() && TraceQuiet() && Interrupted() && (r.Raise? ==> r.exc.Aborted? && left)
      ensures stream == old(stream) + [Content(content)]
    {
      text := text + content;
      r := Yield(Content(content));
      QuietIsInterrupted(Kept(), steps, look.Pressed?, stream);
    }

    method AddAnswerStep()
      requires BetweenTools()
      modifies this`steps
      ensures BetweenTools() && steps == old(steps) + [AnswerStep] && StepIds(steps) == StepIds(old(steps))
    {
      StepIdsNext(steps, AnswerStep);
      steps := steps + [AnswerStep];
      assert StepIds(steps) == StepIds(old(steps));
    }

    /** The model answered without asking for a tool. */
    method AnswerWithoutTools(content: string) returns (r: Outcome<()>)
      requires BetweenTools() && TraceQuiet() && logged > 0 && text == ""
      modifies this`look, this`text, this`steps, this`stream, this`left
      modifies this`traceTurns, this`llmCallStarted, this`turnTraceRecorded, this`traces, this`history
      ensures r.Ok? ==> Over() || (Shut() && StepIds(steps) == old(StepIds(steps)) && EndsWithAnswer(steps) && Said(Success, content))
      ensures r.Raise? ==> r.exc.Aborted? && left && Interrupted()
    {
      var stopped := StopPressed();
      if stopped {
        Cancel();
        return Ok(());
      }
      r := GiveAnswer(content);
    }

    method GiveAnswer(content: string) returns (r: Outcome<()>)
      requires BetweenTools() && TraceQuiet() && logged > 0 && text == ""
      requires look.Unpressed?
      modifies this`text, this`steps, this`stream, this`left
      modifies this`traceTurns, this`llmCallStarted, this`turnTraceRecorded, this`traces, this`history
      ensures r.Ok? ==> Shut() && StepIds(steps) == old(StepIds(steps)) && EndsWithAnswer(steps) && Said(Success, content)
      ensures r.Raise? ==> r.exc.Aborted? && left && Interrupted()
      ensures r.Ok? ==> stream == old(stream) + (if content == "" then [] else [Content(content)]) + [Done]
    {
      if content != "" {
        var _ :- Say(content);
      }
      r := EndAnswer(content);
    }

    method EndAnswer(content: string) returns (r: Outcome<()>)
      requires BetweenTools() && TraceQuiet() && logged > 0 && text == content
      requires !look.Pressed?
      modifies this`steps, this`stream, this`left
      modifies this`traceTurns, this`llmCallStarted, this`turnTraceRecorded, this`traces, this`history
      ensures Shut() && Interrupted() && StepIds(steps) == old(StepIds(steps)) && EndsWithAnswer(steps) && Said(Success, content)
      ensures r.Raise? ==> r.exc.Aborted? && left
      ensures stream == old(stream) + [Done]
    {
      AddAnswerStep();
      r := Conclude(Success, None);
    }

    /** A group tool finished the turn: its summary is the answer. */
    method FinishWithSummary(summary: string) returns (r: Outcome<()>)
      requires BetweenTools() && TraceQuiet() && logged > 0 && text == ""
      requires !look.Pressed?
      modifies this`text, this`stream, this`left, this`traceTurns, this`llmCallStarted, this`turnTraceRecorded, this`traces, this`history
      ensures r.Ok? ==> Shut() && Said(Success, summary)
      ensures r.Raise? ==> r.exc.Aborted? && left && Interrupted()
      ensures r.Ok? ==> stream == old(stream) + [Content(summary)] + [Done]
    {
      var _ :- Say(summary);
      assert text == summary;
      r := Conclude(Success, None);
    }

    // ---------------------------------------------------------------- the loop

    /** Between two rounds, and Stop was not seen. */
    ghost predicate Ready()
      reads this
    {
      Waiting() && !look.Pressed?
    }

    /** Every call the model asked for has run, nothing was said and nothing recorded. */
    ghost predicate Waiting()
      reads this
    {
      BetweenTools() && Rested() && CallsKept() && Sendable()
    }

    ghost predicate Rested()
      reads this`text, this`steps, this`traceTools, this`answers, this`asked, this`finishes, this`finishedSummary
      reads this`turnTraceRecorded, this`traces, this`traceTurns, this`logged, this`history, this`leftAtContext
    {
      RestedOk(Kept(), steps, asked, finishes, finishedSummary)
    }

    ghost predicate Noted(c: Completion)
      reads this`text, this`steps, this`traceTools, this`answers, this`asked, this`finishes, this`finishedSummary
      reads this`turnTraceRecorded, this`traces, this`traceTurns, this`logged, this`history, this`leftAtContext
    {
      NotedOk(Kept(), steps, asked, finishes, finishedSummary, c)
    }

    twostate lemma RestedStays()
      requires old(Rested())
      requires unchanged(this`text, this`steps, this`traceTools, this`answers, this`asked, this`finishes, this`finishedSummary)
      requires unchanged(this`turnTraceRecorded, this`traces, this`traceTurns, this`logged, this`history, this`leftAtContext)
      ensures Rested()
    {
    }

    ghost predicate Served(c: Completion)
      reads this`text, this`steps, this`traceTools, this`answers, this`asked, this`finishes, this`finishedSummary
      reads this`turnTraceRecorded, this`traces, this`traceTurns, this`logged, this`history, this`leftAtContext
    {
      ServedOk(Kept(), steps, asked, finishes, finishedSummary, c)
    }

    /** The model's answer is to be acted on. */
    ghost predicate Acting(c: Completion)
      reads this
    {
      BetweenTools() && Noted(c) && CallsKept() && Sendable() && !look.Pressed?
    }

    ghost predicate Answering(c: Completion)
      reads this`text, this`steps, this`traceTools, this`answers, this`asked
    {
      answers != [] && answers[|answers| - 1] == c && Ran(traceTools) && asked == traceTools + CallIds(c)
    }

    ghost predicate Asked()
      reads this`answers, this`asked
    {
      asked == AllIds(answers)
    }

    /** After a round that goes on, the model had asked for tools. */
    ghost predicate AskedForTools()
      reads this`answers
    {
      answers != [] && answers[|answers| - 1].Answer? && answers[|answers| - 1].calls != []
    }

    ghost predicate Thrown(exc: Raised)
      reads this
    {
      ThrownOk(exc, Kept(), steps, look.Pressed?, stream, left)
    }

    /** What an answered call leads to; true when another round follows. */
    method Act(c: Completion) returns (r: Outcome<bool>)
      requires Acting(c)
      modifies this`messages, this`steps, this`traceTools, this`finishedSummary, this`finishes, this`stream, this`look, this`text, this`left
      modifies this`traceTurns, this`llmCallStarted, this`turnTraceRecorded, this`traces, this`history
      ensures r.Ok? ==> if r.value then Ready() && AskedForTools() else Over()
      ensures r.Raise? ==> Thrown(r.exc)
    {
      if c.NoChoice? {
        var _ :- Fail(c);
        return Ok(false);
      }
      if c.calls == [] {
        var _ :- Reply(c);
        return Ok(false);
      }
      r := UseTools(c);
    }

    /** The model sent no choice. */
    method Fail(ghost c: Completion) returns (r: Outcome<()>)
      requires Acting(c) && c.NoChoice?
      modifies this`stream, this`traceTurns, this`llmCallStarted, this`turnTraceRecorded, this`traces, this`history, this`left
      ensures Over()
      ensures r.Raise? ==> Thrown(r.exc)
    {
      r := Conclude(Failure, Some("No response"));
      FailureEnding(Kept(), steps, look.Pressed?, stream, asked, finishes, rounds);
    }

    /** The model's text is the answer. */
    method Reply(c: Completion) returns (r: Outcome<()>)
      requires Acting(c) && c.Answer? && c.calls == []
      modifies this`look, this`text, this`steps, this`stream, this`left
      modifies this`traceTurns, this`llmCallStarted, this`turnTraceRecorded, this`traces, this`history
      ensures r.Ok? ==> Over()
      ensures r.Raise? ==> Thrown(r.exc)
    {
      r := AnswerWithoutTools(c.text);
      if r.Ok? && !Over() {
        SuccessEnding(Kept(), steps, look.Pressed?, stream, asked, finishes, rounds);
      }
    }

    /** The model asked for tools: run them all, and stop there if one finished the turn. */
    method UseTools(c: Completion) returns (r: Outcome<bool>)
      requires Acting(c) && c.Answer? && c.calls != []
      modifies this`messages, this`steps, this`traceTools, this`finishedSummary, this`finishes, this`stream, this`look, this`text, this`left
      modifies this`traceTurns, this`llmCallStarted, this`turnTraceRecorded, this`traces, this`history
      ensures r.Ok? ==> if r.value then Ready() && AskedForTools() else Over()
      ensures r.Raise? ==> Thrown(r.exc)
    {
      hide RestedOk, OverOk, ThrownOk, CallsKeptOk, SendableOk, NotedOk, ServedOk, BetweenOk;
      var goesOn :- CallTools(c);
      if !goesOn {
        return Ok(false);
      }
      r := AfterCalls(c);
    }

    /** The answer and one message for each of its calls join the messages. False when Stop ended the turn. */
    method CallTools(c: Completion) returns (r: Outcome<bool>)
      requires Acting(c) && c.Answer? && c.calls != []
      modifies this`messages, this`steps, this`traceTools, this`finishedSummary, this`finishes, this`stream, this`look, this`left
      modifies this`traceTurns, this`llmCallStarted, this`turnTraceRecorded, this`traces, this`history
      ensures r.Ok? && r.value ==> BetweenTools() && Served(c) && Sendable() && RoundAdded(old(messages), messages, c)
      ensures r.Ok? && !r.value ==> Over()
      ensures r.Raise? ==> Thrown(r.exc)
      ensures r.Ok? && r.value ==> !look.Pressed?
    {
      ghost var head := messages;
      var asked := Assistant(c.text, Ids(c.calls));
      messages := messages + [asked];
      r := RunCalls(head, asked, c.calls);
      assert answers == old(answers) && logged == old(logged);
    }

    /** All calls are answered: the turn ends here if one of them finished it. */
    method AfterCalls(ghost c: Completion) returns (r: Outcome<bool>)
      requires BetweenTools() && Served(c) && CallsKept() && Sendable() && c.Answer? && c.calls != []
      requires !look.Pressed?
      modifies this`text, this`stream, this`left, this`traceTurns, this`llmCallStarted, this`turnTraceRecorded, this`traces, this`history
      ensures r.Ok? ==> if r.value then Ready() && AskedForTools() else Over()
      ensures r.Raise? ==> Thrown(r.exc)
    {
      if finishedSummary.None? {
        return Ok(true);
      }
      var _ :- EndWithSummary(c);
      return Ok(false);
    }

    method EndWithSummary(ghost c: Completion) returns (r: Outcome<()>)
      requires BetweenTools() && Served(c) && c.Answer? && c.calls != [] && finishedSummary.Some?
      requires !look.Pressed?
      modifies this`text, this`stream, this`left, this`traceTurns, this`llmCallStarted, this`turnTraceRecorded, this`traces, this`history
      ensures r.Ok? ==> Over()
      ensures r.Raise? ==> Thrown(r.exc)
    {
      r := FinishWithSummary(finishedSummary.value);
      if r.Ok? {
        SuccessEnding(Kept(), steps, look.Pressed?, stream, asked, finishes, rounds);
      }
    }

    /** Everything before the model is asked, and the question. None when Stop ended it. */
    method Ask(e: Estimate) returns (r: Outcome<Option<Completion>>)
      requires Ready() && look.Unpressed? && rounds < MAX_ROUNDS
      modifies this`rounds, this`messages, this`stream, this`calls, this`softened, this`shortened, this`llmCallStarted, this`look, this`left
      ensures Waiting() && rounds == old(rounds) + 1
      ensures if r.Ok? then r.value.None? <==> look.Pressed? else Thrown(r.exc)
      ensures r.Ok? ==> calls != [] && calls[|calls| - 1] == ModelCall(rounds, messages)
      ensures (r.Ok? ==> |calls| > |old(calls)|) && |calls| >= |old(calls)|
      ensures |calls| > |old(calls)| ==> calls[|old(calls)|] == ModelCall(rounds, Shortened(prompt, compressible, old(messages), e))
    {
      LaterRound(calls, rounds, rounds + 1);
      rounds := rounds + 1;
      r := ShortenAndAsk(e);
      RestedStays();
      if r.Raise? {
        QuietIsThrown(r.exc, Kept(), steps, look.Pressed?, stream, left);
      }
    }

    method Round() returns (r: Outcome<bool>)
      requires Ready() && look.Unpressed? && rounds < MAX_ROUNDS && |answers| == rounds
      modifies this
      ensures CallsKept() && |answers| <= rounds && OneMore(old(answers), old(asked), answers, asked)
      ensures r.Ok? && r.value ==> Ready() && AskedForTools() && rounds == |answers| == old(rounds) + 1
      ensures r.Ok? && !r.value ==> Over()
      ensures r.Raise? ==> Thrown(r.exc)
    {
      hide RestedOk, OverOk, ThrownOk, CallsKeptOk, SendableOk, NotedOk, ServedOk, BetweenOk;
      var estimate: Estimate := *;
      var answer :- Ask(estimate);
      label answered:
      r := Take(answer);
      CallsStay@answered();
    }

    /** An answer has arrived: its context event goes out. */
    method ShowContext(c: Completion) returns (r: Outcome<()>)
      requires BetweenTools() && TraceQuiet() && Ran(asked)
      modifies this`stream, this`llmCallStarted, this`answers, this`asked, this`left
      ensures BetweenTools() && Pending(c) && Answering(c)
      ensures CameIn(old(answers), old(asked), answers, asked, c)
      ensures r.Raise? ==> r.exc.Aborted? && left
      ensures !llmCallStarted
    {
      Arrive(c);
      r := Yield(Note);
    }

    /** The context event and the trace turn of an answered call. A consumer that leaves at
        that event leaves the call out of the trace. */
    method NoteAnswer(c: Completion) returns (r: Outcome<()>)
      requires BetweenTools() && Rested()
      modifies this`stream, this`llmCallStarted, this`traceTurns, this`answers, this`asked, this`logged, this`left, this`leftAtContext
      ensures BetweenTools() && CameIn(old(answers), old(asked), answers, asked, c)
      ensures r.Ok? ==> Noted(c)
      ensures r.Raise? ==> leftAtContext && Thrown(r.exc)
      ensures !llmCallStarted
    {
      r := ShowContext(c);
      if r.Raise? {
        LeaveAtContext(c);
      } else {
        RecordAnswer(c);
      }
    }

    /** What came back from the model: nothing when Stop cut it short, else an answer to act on. */
    method Take(answer: Option<Completion>) returns (r: Outcome<bool>)
      requires Waiting() && (answer.None? <==> look.Pressed?)
      modifies this`messages, this`steps, this`traceTools, this`finishedSummary, this`finishes, this`stream, this`look, this`text, this`left
      modifies this`traceTurns, this`llmCallStarted, this`turnTraceRecorded, this`traces, this`history
      modifies this`answers, this`asked, this`logged, this`leftAtContext
      ensures OneMore(old(answers), old(asked), answers, asked) && |answers| == |old(answers)| + (if answer.Some? then 1 else 0)
      ensures r.Ok? ==> if r.value then answer.Some? && Ready() && AskedForTools() else Over()
      ensures r.Raise? ==> Thrown(r.exc)
    {
      if answer.None? {
        Cancel();
        return Ok(false);
      }
      r := TakeAnswer(answer.value);
    }

    method TakeAnswer(c: Completion) returns (r: Outcome<bool>)
      requires Ready()
      modifies this`messages, this`steps, this`traceTools, this`finishedSummary, this`finishes, this`stream, this`look, this`text, this`left
      modifies this`traceTurns, this`llmCallStarted, this`turnTraceRecorded, this`traces, this`history
      modifies this`answers, this`asked, this`logged, this`leftAtContext
      ensures CameIn(old(answers), old(asked), answers, asked, c)
      ensures r.Ok? ==> if r.value then Ready() && AskedForTools() else Over()
      ensures r.Raise? ==> Thrown(r.exc)
    {
      hide RestedOk, OverOk, ThrownOk, CallsKeptOk, SendableOk, NotedOk, ServedOk, BetweenOk;
      var _ :- NoteAnswer(c);
      r := Act(c);
    }

    /** One pass of the `while` loop: a look at Stop, then the round. */
    method Pass() returns (r: Outcome<bool>)
      requires Ready() && rounds < MAX_ROUNDS && |answers| == rounds
      modifies this
      ensures CallsKept() && |answers| <= rounds && OneMore(old(answers), old(asked), answers, asked)
      ensures r.Ok? && r.value ==> Ready() && AskedForTools() && rounds == |answers| == old(rounds) + 1
      ensures r.Ok? && !r.value ==> Over()
      ensures r.Raise? ==> Thrown(r.exc)
    {
      var stopped := StopPressed();
      if stopped {
        Cancel();
        r := Ok(false);
      } else {
        r := Round();
      }
    }

    /** The last round went by and the model still asks for tools. */
    method GiveUp() returns (r: Outcome<()>)
      requires Ready() && Asked() && |answers| <= rounds == MAX_ROUNDS && AskedForTools()
      modifies this`stream, this`traceTurns, this`llmCallStarted, this`turnTraceRecorded, this`traces, this`history, this`left
      ensures Over()
      ensures r.Raise? ==> Thrown(r.exc)
      ensures CallsKept() && |answers| <= rounds && Asked()
    {
      r := Conclude(Failure, Some("Too many tool rounds"));
      CallsStay();
      FailureEnding(Kept(), steps, look.Pressed?, stream, asked, finishes, rounds);
    }

    method Rounds() returns (r: Outcome<()>)
      requires Ready() && Asked() && rounds == 0 && answers == []
      modifies this
      ensures CallsKept() && |answers| <= rounds && Asked()
      ensures r.Ok? ==> Over()
      ensures r.Raise? ==> Thrown(r.exc)
    {
      hide RestedOk, OverOk, ThrownOk, CallsKeptOk, SendableOk, NotedOk, ServedOk, BetweenOk;
      while rounds < MAX_ROUNDS
        invariant Ready() && Asked() && rounds == |answers| <= MAX_ROUNDS && (rounds > 0 ==> AskedForTools())
        decreases MAX_ROUNDS - rounds
      {
        ghost var before := answers;
        var pass := Pass();
        AllIdsOneMore(before, answers, asked);
        var goesOn :- pass;
        if !goesOn {
          return Ok(());
        }
      }
      r := GiveUp();
    }

    /** `except Exception`; the exception's text may be empty. */
    method Handle() returns (exit: Exit)
      requires Telling() && TraceQuiet()
      modifies this`look, this`stream, this`left, this`traceTurns, this`llmCallStarted, this`turnTraceRecorded, this`traces, this`history
      ensures Closed() && (exit.Abandoned? ==> left) && !exit.Returned? && !history[0].status.Success?
    {
      var stopped := StopPressed();
      if stopped {
        RecordRun(Cancelled, None);
        return Handled;
      }
      var message: string := *;
      var last := Conclude(Failure, Some(message));
      return if last.Ok? then Handled else Abandoned;
    }

    /** `finally`: an abandoned turn still leaves a trace of the calls it finished. */
    method Finally()
      requires Interrupted()
      modifies this`traceTurns, this`llmCallStarted, this`turnTraceRecorded, this`traces
      ensures Interrupted() && (traced && traceTurns != [] ==> traces != [])
      ensures (old(Closed()) ==> Closed()) && (old(Over()) ==> Over())
    {
      RecordTurnTrace(None);
    }

    /** The whole turn, with its `try`, `except Exception` and `finally`. */
    method Stream() returns (exit: Exit)
      requires Ready() && Asked() && rounds == 0 && answers == []
      modifies this
      ensures CallsKept() && |answers| <= rounds && Asked()
      ensures if exit.Abandoned? then left else Closed()
      ensures if exit.Returned? then Over() else exit.Handled? ==> !history[0].status.Success?
      ensures Interrupted() && (traced && traceTurns != [] ==> traces != [])
    {
      hide OverOk, ThrownOk, ClosedOk, InterruptedOk, CallsKeptOk;
      var body := Rounds();
      exit := Close(body);
    }

    /** The `except` and `finally` clauses. */
    method Close(body: Outcome<()>) returns (exit: Exit)
      requires if body.Ok? then Over() else Thrown(body.exc)
      modifies this`look, this`stream, this`left, this`traceTurns, this`llmCallStarted, this`turnTraceRecorded, this`traces, this`history
      ensures if exit.Abandoned? then left else Closed()
      ensures if exit.Returned? then Over() else exit.Handled? ==> !history[0].status.Success?
      ensures Interrupted() && (traced && traceTurns != [] ==> traces != [])
    {
      hide OverOk, ThrownOk, ClosedOk, InterruptedOk;
      exit := Leave(body);
      Finally();
    }

    /** Where the body's outcome leads: out, into the handler, or past it. */
    method Leave(body: Outcome<()>) returns (exit: Exit)
      requires if body.Ok? then Over() else Thrown(body.exc)
      modifies this`look, this`stream, this`left, this`traceTurns, this`llmCallStarted, this`turnTraceRecorded, this`traces, this`history
      ensures Interrupted() && if exit.Abandoned? then left else Closed()
      ensures if exit.Returned? then Over() else exit.Handled? ==> !history[0].status.Success?
    {
      if body.Ok? {
        return Returned;
      }
      if body.exc.Failed? {
        exit := Handle();
        return;
      }
      return Abandoned;
    }
  }

  lemma CutsExactMore(softened: seq<seq<Message>>, shortened: seq<seq<Message>>,
                      prompt: string, t: seq<Message>, full: bool, summary: Option<string>)
    requires CutsExact(softened, shortened) && TurnCompressed(prompt, t, full, summary).Some?
    ensures CutsExact(softened + [t], shortened + [TurnCompressed(prompt, t, full, summary).value])
    ensures WellFormed(t) ==> (WellFormed(TurnCompressed(prompt, t, full, summary).value) <==> !CutsInsideToolGroup(t))
  {
    if WellFormed(t) { SoftCompressionKeepsWellFormedIff(prompt, t, full, summary); }
  }

  /** A soft compression keeps the messages fit to be sent, unless it is the one that cut a group. */
  lemma SoftenedMore(initial: seq<Message>, softened: seq<seq<Message>>, calls: seq<ModelCall>, rounds: nat,
                     prompt: string, t: seq<Message>, full: bool, summary: Option<string>)
    requires CallsOk(initial, softened, calls, rounds)
    requires WellFormed(initial) && CutClean(softened) ==> WellFormed(t)
    requires TurnCompressed(prompt, t, full, summary).Some?
    ensures CallsOk(initial, softened + [t], calls, rounds)
    ensures WellFormed(initial) && CutClean(softened + [t]) ==> WellFormed(TurnCompressed(prompt, t, full, summary).value)
  {
    CutCleanMore(softened, t);
    if WellFormed(t) {
      SoftCompressionKeepsWellFormedIff(prompt, t, full, summary);
    }
  }

  /** A terminal event ends a stream that tells the run's story and leaves no tool open, or fails. */
  lemma StreamEnds(stream: seq<Event>, e: Event, text: string, steps: seq<Step>)
    requires StreamOk(stream, text, steps) && Read(stream).terminal.None?
    requires e.Error? || (e.Done? && Read(stream).open.None?)
    ensures StreamOk(stream + [e], text, steps)
    ensures Read(stream + [e]).terminal == Some(e) && Read(stream + [e]).open == Read(stream).open
  {
    ReadNext(stream, e);
  }

  lemma AnsweredRound(head: seq<Message>, asked: Message, results: seq<Message>)
    requires WellFormed(head) && asked.Assistant? && Answers(results, asked.calls)
    ensures WellFormed(head + ([asked] + results))
  {
    GroupWellFormed(asked, results);
    AppendWellFormed(head, [asked] + results);
  }

  /** One more call of `asked` is answered, in the messages and in the list of those that have run. */
  lemma CallAnswered(head: seq<Message>, asked: Message, results: seq<Message>, before: seq<Message>, after: seq<Message>,
                     ran: seq<string>, i: nat)
    requires asked.Assistant? && i < |asked.calls| && Answers(results, asked.calls[..i])
    requires before == head + ([asked] + results) && Answered(before, after, asked.calls[i])
    ensures Answers(results + [after[|before|]], asked.calls[..i + 1])
    ensures after == head + ([asked] + (results + [after[|before|]]))
    ensures asked.calls[..i] + [asked.calls[i]] == asked.calls[..i + 1]
    ensures ran + asked.calls[..i] + [asked.calls[i]] == ran + asked.calls[..i + 1]
  {
    assert asked.calls[..i + 1] == asked.calls[..i] + [asked.calls[i]];
    assert after == before + [after[|before|]];
  }

  ghost predicate Answered(before: seq<Message>, after: seq<Message>, id: string) {
    |after| == |before| + 1 && after[..|before|] == before && after[|before|].ToolResult? && after[|before|].callId == id
  }

  /** Every run of a turn, whatever the world does. */
  method RunTurn(prompt: string, initial: seq<Message>, traced: bool, compressible: bool, shapeOf: string -> Shape)
    returns (t: Turn, exit: Exit)
    // the model calls: at most 66 rounds, at most two a round, on transcripts fit to be sent
    ensures t.rounds <= 66 && CallsInOrder(t.calls, t.rounds) && |t.calls| <= 2 * t.rounds
    ensures WellFormed(initial) && CutClean(t.softened) ==> AllWellFormed(t.calls)
    ensures CutsExact(t.softened, t.shortened)
    // the stream: each tool ends before the next one starts, and the last one unless an exception
    // ended the turn; the terminal event is last, and the one the run's status asks for
    ensures !Read(t.stream).broken && (exit.Returned? ==> Read(t.stream).open.None?)
    ensures exit.Abandoned? ==> t.left
    ensures exit.Abandoned? || (|t.history| == 1 && Read(t.stream).terminal == TerminalOf(t.history[0].status))
    // what it said: the last answer or the summary of a tool that finished it, after all the tools ran
    ensures exit.Returned? ==> Ending(t.history[0], Read(t.stream), t.answers, AllIds(t.answers), t.finishes, t.rounds)
    ensures exit.Handled? ==> !t.history[0].status.Success? && Read(t.stream).terminal != Some(Done)
    ensures |t.answers| <= t.rounds
    // the run record: at most one, telling what the stream told
    ensures |t.history| <= 1 && (t.history != [] ==> (t.history[0].status.Cancelled? <==> t.look.Pressed?))
    ensures !exit.Abandoned? ==> t.history[0].text == Read(t.stream).text
    ensures exit.Returned? ==> StepIds(t.history[0].steps) == Read(t.stream).ended
    ensures !exit.Abandoned? && Read(t.stream).open.None? ==> StepIds(t.history[0].steps) == Read(t.stream).ended
    // the trace: at most one, with the turns of the answered calls
    ensures |t.traces| <= 1 && (!traced ==> t.traces == [])
    ensures traced && t.traceTurns != [] ==> t.traces != []
    ensures t.traces != [] ==> TracesTurns(t.traces[0], t.traceTurns, t.traceTools, t.text)
    ensures Numbered(t.traceTurns, t.answers, t.logged)
    ensures t.logged < |t.answers| <==> t.leftAtContext
    ensures t.leftAtContext ==> exit.Abandoned? && |t.answers| == t.logged + 1
  {
    t := new Turn(prompt, initial, traced, compressible, shapeOf);
    exit := t.Stream();
    TraceOfTracesTurns(t.traceTurns, t.traceTools, t.text);
    AtMostTwoCallsARound(t.calls, t.rounds);
  }
}
