/** One turn of the dashboard chat: `stream_dashboard_chat` of backend/app/api/ai_assistant.py.

    The generator is a class. What it cannot decide itself (whether Stop was pressed, what the
    model answers, what a tool returns or raises, whether the consumer goes away) is chosen
    arbitrarily by the methods under "the world outside", so a contract below holds of every
    run. A Python exception is a `Raise`; `Aborted` stands for GeneratorExit and
    CancelledError, which `except Exception` does not catch.
 */
module ChatTurn {
  import opened Options
  import opened Transcript

  const MAX_ROUNDS := 66

  datatype Raised = Failed(overflow: bool) | Aborted

  datatype Outcome<+T> = Ok(value: T) | Raise(exc: Raised) {
    predicate IsFailure() { Raise? }
    predicate Overflowed() { Raise? && exc.Failed? && exc.overflow }
    function PropagateFailure<U>(): Outcome<U> requires Raise? { Raise(exc) }
    function Extract(): T requires Ok? { value }
  }

  datatype Usage = Usage(prompt: Option<int>, completion: Option<int>, total: Option<int>)

  datatype ToolCall = ToolCall(id: string, name: string)

  datatype Completion = NoChoice(usage: Usage) | Answer(usage: Usage, text: string, calls: seq<ToolCall>)

  /** How a tool's branch behaves: `Plain` runs through; `Watched` streams progress and looks at
      Stop afterwards; a `Group` tool does so too and may finish the turn. */
  datatype Shape = Plain | Watched | Group

  datatype Event =
    | Note                       // context, compressed, draft, and the events a tool adds
    | Content(text: string)
    | ToolStart(id: string)
    | ToolProgress(id: string)
    | ToolEnd(id: string)
    | Done
    | Error

  datatype Status = Success | Failure | Cancelled

  /** What the last look at Stop found; `Used` once a request or a tool was started on the strength of it. */
  datatype Look = Used | Unpressed | Pressed

  /** A row of the run's steps: a tool's, or the assistant's own answer. */
  datatype Step = ToolStep(id: string) | AnswerStep

  datatype TraceTurn = TraceTurn(turn: nat, usage: Usage, toolCalls: nat, textChars: nat, failed: bool)

  datatype RunRecord = RunRecord(status: Status, text: string, steps: seq<Step>)

  datatype TraceRecord = TraceRecord(turns: seq<TraceTurn>, promptTokens: Option<int>, completionTokens: Option<int>,
                                     totalTokens: Option<int>, tools: seq<string>, text: string)

  /** A request sent to the model: the round it belongs to and the messages it carried. */
  datatype ModelCall = ModelCall(round: nat, transcript: seq<Message>)

  // ---------------------------------------------------------------- reading the event stream

  /** What a reader of the stream knows: the tool that is open, those that ended, the text so
      far, the terminal event, and whether an event came where none of its kind may. */
  datatype View = View(open: Option<string>, ended: seq<string>, text: string, terminal: Option<Event>, broken: bool)

  function After(v: View, e: Event): View {
    if v.terminal.Some? then v.(broken := true)
    else match e
      case Note => v
      case Content(t) => v.(text := v.text + t, broken := v.broken || v.open.Some?)
      case ToolStart(id) => v.(open := Some(id), broken := v.broken || v.open.Some?)
      case ToolProgress(id) => v.(broken := v.broken || v.open != Some(id))
      case ToolEnd(id) => v.(open := None, ended := v.ended + [id], broken := v.broken || v.open != Some(id))
      case Done => v.(terminal := Some(e), broken := v.broken || v.open.Some?)
      case Error => v.(terminal := Some(e))
  }

  ghost function Read(stream: seq<Event>): View {
    if stream == [] then View(None, [], "", None, false)
    else After(Read(stream[..|stream| - 1]), stream[|stream| - 1])
  }

  lemma ReadNext(stream: seq<Event>, e: Event)
    ensures Read(stream + [e]) == After(Read(stream), e)
  {
    assert (stream + [e])[..|stream|] == stream;
  }

  /** A readable stream has its terminal event, if any, last. */
  lemma {:induction false} TerminalIsLast(stream: seq<Event>, i: nat)
    requires !Read(stream).broken && i + 1 < |stream|
    ensures !stream[i].Done? && !stream[i].Error?
  {
    var n := |stream| - 1;
    if i + 1 < n {
      TerminalIsLast(stream[..n], i);
    } else {
      assert stream[..n][..i] == stream[..i];
    }
  }

  /** Until its end event, a started tool stays the open one. */
  lemma {:induction false} OpenUntilEnd(stream: seq<Event>, i: nat)
    requires !Read(stream).broken && i < |stream| && stream[i].ToolStart?
    requires forall k | i < k < |stream| :: !stream[k].ToolEnd?
    ensures Read(stream).open == Some(stream[i].id)
    ensures forall k | i < k < |stream| :: !stream[k].ToolStart?
  {
    var n := |stream| - 1;
    if i < n { OpenUntilEnd(stream[..n], i); }
  }

  lemma {:induction false} PrefixReadable(stream: seq<Event>, n: nat)
    requires !Read(stream).broken && n <= |stream|
    ensures !Read(stream[..n]).broken
  {
    var m := |stream| - 1;
    if n <= m {
      PrefixReadable(stream[..m], n);
      assert stream[..m][..n] == stream[..n];
    } else {
      assert stream[..n] == stream;
    }
  }

  /** A readable stream ends each tool, under the id it started with, before it starts the next. */
  lemma {:induction false} EndsBeforeNextStart(stream: seq<Event>, i: nat, j: nat) returns (k: nat)
    requires !Read(stream).broken && i < j < |stream| && stream[i].ToolStart? && stream[j].ToolStart?
    ensures i < k < j && stream[k] == ToolEnd(stream[i].id)
    ensures forall m | i < m < k :: !stream[m].ToolEnd? && !stream[m].ToolStart?
  {
    k := i + 1;
    while k < j && !stream[k].ToolEnd?
      invariant i < k <= j
      invariant forall m | i < m < k :: !stream[m].ToolEnd?
    {
      k := k + 1;
    }
    PrefixReadable(stream, k);
    assert forall m | i < m < k :: stream[..k][m] == stream[m];
    OpenUntilEnd(stream[..k], i);
    PrefixReadable(stream, k + 1);
    assert stream[..k + 1][..k] == stream[..k];
  }

  ghost function StepIds(steps: seq<Step>): seq<string> {
    if steps == [] then []
    else
      var n := |steps| - 1;
      StepIds(steps[..n]) + if steps[n].ToolStep? then [steps[n].id] else []
  }

  lemma StepIdsNext(steps: seq<Step>, s: Step)
    ensures StepIds(steps + [s]) == StepIds(steps) + if s.ToolStep? then [s.id] else []
  {
    assert (steps + [s])[..|steps|] == steps;
  }

  // ---------------------------------------------------------------- the trace

  /** The trace turn of the n-th answered call. */
  function TurnOf(n: nat, c: Completion): TraceTurn {
    match c
    case NoChoice(usage) => TraceTurn(n, usage, 0, 0, true)
    case Answer(usage, text, calls) => TraceTurn(n, usage, |calls|, |text|, false)
  }

  function Plus(a: Option<int>, b: Option<int>): Option<int> {
    if a.None? then b else if b.None? then a else Some(a.value + b.value)
  }

  /** The sum over the turns that report the number; None when none does. */
  function TokenTotal(turns: seq<TraceTurn>, count: Usage -> Option<int>): Option<int> {
    if turns == [] then None
    else Plus(TokenTotal(turns[..|turns| - 1], count), count(turns[|turns| - 1].usage))
  }

  function PromptOf(u: Usage): Option<int> { u.prompt }

  function CompletionOf(u: Usage): Option<int> { u.completion }

  function TotalOf(u: Usage): Option<int> { u.total }

  function TraceOf(turns: seq<TraceTurn>, tools: seq<string>, text: string): TraceRecord {
    TraceRecord(turns, TokenTotal(turns, PromptOf), TokenTotal(turns, CompletionOf), TokenTotal(turns, TotalOf), tools, text)
  }

  /** The trace turn tells of the n-th call what the model answered. */
  predicate Tells(t: TraceTurn, n: nat, c: Completion) {
    && t.turn == n && t.usage == c.usage
    && (t.failed <==> c.NoChoice?)
    && t.toolCalls == (if c.NoChoice? then 0 else |c.calls|)
    && t.textChars == (if c.NoChoice? then 0 else |c.text|)
  }

  /** A total of a trace: None when no turn reports the number, else the sum of the reports. */
  ghost predicate TotalIs(total: Option<int>, turns: seq<TraceTurn>, count: Usage -> Option<int>) {
    && (total.None? <==> forall t | t in turns :: count(t.usage).None?)
    && (total.Some? ==> total.value == Reported(turns, count))
  }

  /** The trace of these turns, with the tools that answered and the text that was said. */
  ghost predicate TracesTurns(r: TraceRecord, turns: seq<TraceTurn>, tools: seq<string>, text: string) {
    && r.turns == turns && r.tools == tools && r.text == text
    && TotalIs(r.promptTokens, turns, PromptOf)
    && TotalIs(r.completionTokens, turns, CompletionOf)
    && TotalIs(r.totalTokens, turns, TotalOf)
  }

  lemma TraceOfTracesTurns(turns: seq<TraceTurn>, tools: seq<string>, text: string)
    ensures TracesTurns(TraceOf(turns, tools, text), turns, tools, text)
  {
    TokenTotalIsSum(turns, PromptOf);
    TokenTotalIsSum(turns, CompletionOf);
    TokenTotalIsSum(turns, TotalOf);
  }

  /** The first `logged` turns are the answered calls', numbered from 1; at most one more, the
      call that was in flight when the turn failed. */
  ghost predicate Numbered(turns: seq<TraceTurn>, answers: seq<Completion>, logged: nat) {
    && logged <= |answers| <= logged + 1
    && logged <= |turns| <= logged + 1
    && (forall i | 0 <= i < logged :: Tells(turns[i], i + 1, answers[i]))
    && (|turns| == logged + 1 ==>
          turns[logged].turn == logged + 1 && turns[logged].failed && turns[logged].toolCalls == turns[logged].textChars == 0
          && turns[logged].usage == Usage(None, None, None))
  }

  function FailedTurn(n: nat): TraceTurn { TraceTurn(n, Usage(None, None, None), 0, 0, true) }

  lemma LogAnswer(turns: seq<TraceTurn>, answers: seq<Completion>)
    requires Numbered(turns, answers, |turns|) && |answers| == |turns| + 1
    ensures Numbered(turns + [TurnOf(|turns| + 1, answers[|turns|])], answers, |answers|)
  {
  }

  lemma AnswerArrived(turns: seq<TraceTurn>, answers: seq<Completion>, c: Completion)
    requires Numbered(turns, answers, |turns|) && |answers| == |turns|
    ensures Numbered(turns, answers + [c], |turns|)
  {
  }

  lemma LogFailed(turns: seq<TraceTurn>, answers: seq<Completion>, logged: nat)
    requires Numbered(turns, answers, logged) && |turns| == logged
    ensures Numbered(turns + [FailedTurn(logged + 1)], answers, logged)
  {
  }

  // ---------------------------------------------------------------- the model calls

  /** Rounds never go back, none has a third call, and a second one carries a single user message. */
  ghost predicate CallsInOrder(calls: seq<ModelCall>, rounds: nat) {
    calls == [] ||
    var n := |calls| - 1;
    && 1 <= calls[n].round <= rounds
    && CallsInOrder(calls[..n], calls[n].round)
    && (n >= 1 && calls[n - 1].round == calls[n].round ==> Retry(calls[..n], calls[n]))
  }

  /** The one retry that a hard compression allows. */
  ghost predicate Retry(before: seq<ModelCall>, c: ModelCall) {
    && |c.transcript| == 1 && c.transcript[0].User?
    && (|before| >= 2 ==> before[|before| - 2].round < c.round)
  }

  lemma CallAppended(calls: seq<ModelCall>, c: ModelCall)
    requires CallsInOrder(calls, c.round) && 1 <= c.round
    requires calls != [] && calls[|calls| - 1].round == c.round ==> Retry(calls, c)
    ensures CallsInOrder(calls + [c], c.round)
  {
    assert (calls + [c])[..|calls|] == calls;
  }

  lemma LaterRound(calls: seq<ModelCall>, rounds: nat, later: nat)
    requires CallsInOrder(calls, rounds) && rounds <= later
    ensures CallsInOrder(calls, later)
  {
  }

  /** Call by call: at most two a round, in at most `rounds` rounds. */
  lemma {:induction false} CallsOfARound(calls: seq<ModelCall>, rounds: nat, i: nat)
    requires CallsInOrder(calls, rounds) && i < |calls|
    ensures 1 <= calls[i].round <= rounds
    ensures i + 1 < |calls| ==> calls[i].round <= calls[i + 1].round
    ensures i + 2 < |calls| ==> calls[i].round < calls[i + 2].round
    ensures i + 1 < |calls| && calls[i].round == calls[i + 1].round ==>
              |calls[i + 1].transcript| == 1 && calls[i + 1].transcript[0].User?
    decreases |calls|
  {
    var n := |calls| - 1;
    if i + 2 < n {
      CallsOfARound(calls[..n], calls[n].round, i);
    } else if i < n {
      CallsOfARound(calls[..n], calls[n].round, i);
      CallsOfARound(calls[..n], calls[n].round, n - 1);
    }
  }

  /** Hence at most two calls for each round. */
  lemma {:induction false} AtMostTwoCallsARound(calls: seq<ModelCall>, rounds: nat)
    requires CallsInOrder(calls, rounds)
    ensures |calls| <= 2 * rounds
    decreases |calls|
  {
    if |calls| > 2 {
      var n := |calls| - 1;
      CallsOfARound(calls, rounds, n - 2);
      CallsOfARound(calls, rounds, n);
      var before := calls[..n][..n - 1];
      assert CallsInOrder(calls[..n], calls[n].round);
      assert CallsInOrder(before, calls[..n][n - 1].round);
      assert before[n - 2] == calls[n - 2];
      AtMostTwoCallsARound(before, calls[n - 2].round);
    } else if calls != [] {
      CallsOfARound(calls, rounds, 0);
    }
  }

  /** No soft compression cut through a tool group. */
  ghost predicate CutClean(softened: seq<seq<Message>>) {
    forall i | 0 <= i < |softened| :: !CutsInsideToolGroup(softened[i])
  }

  ghost predicate AllWellFormed(calls: seq<ModelCall>) {
    forall i | 0 <= i < |calls| :: WellFormed(calls[i].transcript)
  }

  lemma CutCleanMore(softened: seq<seq<Message>>, t: seq<Message>)
    ensures CutClean(softened + [t]) <==> CutClean(softened) && !CutsInsideToolGroup(t)
  {
    var more := softened + [t];
    assert more[|softened|] == t && forall i | 0 <= i < |softened| :: more[i] == softened[i];
  }

  lemma AllWellFormedMore(calls: seq<ModelCall>, c: ModelCall)
    ensures AllWellFormed(calls + [c]) <==> AllWellFormed(calls) && WellFormed(c.transcript)
  {
    var more := calls + [c];
    assert more[|calls|] == c && forall i | 0 <= i < |calls| :: more[i] == calls[i];
  }

  function Ids(calls: seq<ToolCall>): (ids: seq<string>)
    ensures |ids| == |calls| && forall i | 0 <= i < |calls| :: ids[i] == calls[i].id
  {
    if calls == [] then [] else [calls[0].id] + Ids(calls[1..])
  }

  function CallIds(c: Completion): seq<string> { if c.Answer? then Ids(c.calls) else [] }

  /** The ids of all tool calls the model asked for, in order. */
  function AllIds(answers: seq<Completion>): seq<string> {
    if answers == [] then [] else AllIds(answers[..|answers| - 1]) + CallIds(answers[|answers| - 1])
  }

  lemma AllIdsNext(answers: seq<Completion>, c: Completion)
    ensures AllIds(answers + [c]) == AllIds(answers) + CallIds(c)
  {
    assert (answers + [c])[..|answers|] == answers;
  }

  /** The answer `c` came in, and `asked` gained the ids of its calls. */
  ghost predicate CameIn(before: seq<Completion>, asked: seq<string>, after: seq<Completion>, askedAfter: seq<string>, c: Completion) {
    after == before + [c] && askedAfter == asked + CallIds(c)
  }

  /** At most one answer came in. */
  ghost predicate OneMore(before: seq<Completion>, asked: seq<string>, after: seq<Completion>, askedAfter: seq<string>) {
    || (after == before && askedAfter == asked)
    || (after != [] && CameIn(before, asked, after, askedAfter, after[|after| - 1]))
  }

  lemma AllIdsOneMore(before: seq<Completion>, after: seq<Completion>, askedAfter: seq<string>)
    requires OneMore(before, AllIds(before), after, askedAfter)
    ensures askedAfter == AllIds(after)
  {
    if after != before { AllIdsNext(before, after[|before|]); }
  }

  predicate EndsWithAnswer(steps: seq<Step>) { steps != [] && steps[|steps| - 1].AnswerStep? }

  /** What a turn that returned tells of itself. Cancelled: nothing was said. A success: every tool
      the model asked for has ended, and what was said is the last answer's text, or the summary of
      the group tool of the last answer that finished the turn. A failure: nothing was said, and the
      last answer was empty, or it still asked for tools after the last round. */
  ghost predicate Ending(r: RunRecord, v: View, answers: seq<Completion>, asked: seq<string>, finishes: seq<(string, string)>,
                         rounds: nat)
  {
    && r.text == v.text
    && match r.status
       case Cancelled => v.terminal.None? && v.text == ""
       case Success =>
         && v.terminal == Some(Done) && answers != [] && answers[|answers| - 1].Answer? && v.ended == asked
         && var last := answers[|answers| - 1];
            (if last.calls == [] then v.text == last.text && EndsWithAnswer(r.steps)
             else finishes != [] && finishes[|finishes| - 1].0 in Ids(last.calls) && v.text == finishes[|finishes| - 1].1)
       case Failure =>
         && v.terminal == Some(Error) && v.text == "" && answers != []
         && var last := answers[|answers| - 1];
            (last.NoChoice? || (last.calls != [] && finishes == [] && rounds == 66))
  }

  /** A group tool finished the turn exactly when one of the calls so far did, the last of them. */
  ghost predicate FinishKept(summary: Option<string>, finishes: seq<(string, string)>, ids: seq<string>) {
    && (summary.None? <==> finishes == [])
    && (summary.Some? ==> finishes[|finishes| - 1].1 == summary.value && finishes[|finishes| - 1].0 in ids)
  }

  /** Tool `id` finished the turn with the summary it gave, or gave none and changed nothing. */
  ghost predicate FinishIs(was: Option<string>, before: seq<(string, string)>,
                           now: Option<string>, after: seq<(string, string)>, id: string, finish: Option<string>) {
    if finish.None? then now == was && after == before else now == finish && after == before + [(id, finish.value)]
  }

  lemma FinishKeptMore(was: Option<string>, before: seq<(string, string)>, now: Option<string>, after: seq<(string, string)>,
                       ids: seq<string>, id: string, finish: Option<string>)
    requires FinishKept(was, before, ids) && FinishIs(was, before, now, after, id, finish)
    ensures FinishKept(now, after, ids + [id])
  {
  }

  /** The messages after a round of tools: the answer and one message for each call. */
  ghost predicate RoundAdded(before: seq<Message>, after: seq<Message>, c: Completion) {
    c.Answer? && |after| == |before| + 1 + |c.calls| && before + [Assistant(c.text, Ids(c.calls))] <= after
  }

  /** A trace's total is None when no turn reports the number, and otherwise the sum of the reports. */
  lemma {:induction false} TokenTotalIsSum(turns: seq<TraceTurn>, count: Usage -> Option<int>)
    ensures TokenTotal(turns, count).None? <==> forall t | t in turns :: count(t.usage).None?
    ensures TokenTotal(turns, count).Some? ==> TokenTotal(turns, count).value == Reported(turns, count)
    ensures TokenTotal(turns, count).None? ==> Reported(turns, count) == 0
  {
    if turns != [] {
      var n := |turns| - 1;
      assert forall t :: t in turns <==> t in turns[..n] || t == turns[n];
      TokenTotalIsSum(turns[..n], count);
    }
  }

  ghost function Reported(turns: seq<TraceTurn>, count: Usage -> Option<int>): int {
    if turns == [] then 0
    else
      var c := count(turns[|turns| - 1].usage);
      Reported(turns[..|turns| - 1], count) + if c.Some? then c.value else 0
  }

  /** How a turn ended: by `return`, through `except Exception`, or by being abandoned. */
  datatype Exit = Returned | Handled | Abandoned

  /** The stream is readable and tells the same story as the run's steps and text. */
  ghost predicate StreamOk(stream: seq<Event>, text: string, steps: seq<Step>) {
    var v := Read(stream);
    !v.broken && v.text == text && (v.open.None? ==> v.ended == StepIds(steps))
  }

  ghost predicate TraceOk(traced: bool, recorded: bool, traces: seq<TraceRecord>, turns: seq<TraceTurn>,
                          tools: seq<string>, text: string, answers: seq<Completion>, logged: nat)
  {
    && Numbered(turns, answers, logged)
    && (recorded <==> traces != []) && |traces| <= 1
    && (traces != [] ==> traced && traces[0] == TraceOf(turns, tools, text))
  }

  ghost predicate CallsOk(initial: seq<Message>, softened: seq<seq<Message>>, calls: seq<ModelCall>, rounds: nat) {
    && rounds <= MAX_ROUNDS && CallsInOrder(calls, rounds)
    && (WellFormed(initial) && CutClean(softened) ==> AllWellFormed(calls))
  }

  /** Each soft compression left well-formed messages well formed exactly when it cut no tool group. */
  ghost predicate CutsExact(softened: seq<seq<Message>>, shortened: seq<seq<Message>>) {
    && |shortened| == |softened|
    && forall i | 0 <= i < |softened| && WellFormed(softened[i]) ::
         WellFormed(shortened[i]) <==> !CutsInsideToolGroup(softened[i])
  }

  ghost predicate CallsKeptOk(initial: seq<Message>, softened: seq<seq<Message>>, shortened: seq<seq<Message>>,
                              calls: seq<ModelCall>, rounds: nat)
  {
    CallsOk(initial, softened, calls, rounds) && CutsExact(softened, shortened)
  }

  /** The messages are fit to be sent, unless they started unfit or a soft compression cut a group. */
  ghost predicate SendableOk(initial: seq<Message>, softened: seq<seq<Message>>, messages: seq<Message>) {
    WellFormed(initial) && CutClean(softened) ==> WellFormed(messages)
  }

  /** What is found out about the messages before a request: whether they reach the threshold, what
      the summarising model writes if it answers, whether they are too long even then, and what a
      hard compression would put in their place. */
  datatype Estimate = Estimate(full: bool, summary: Option<string>, tooLong: bool, digest: string)

  function SoftlyShortened(prompt: string, compressible: bool, t: seq<Message>, e: Estimate): seq<Message> {
    var shorter := TurnCompressed(prompt, t, e.full, e.summary);
    if compressible && shorter.Some? then shorter.value else t
  }

  function HardShortened(compressible: bool, t: seq<Message>, digest: string): seq<Message> {
    if compressible && WithoutSystem(t) != [] then [User(digest)] else t
  }

  /** What a request carries of the messages. */
  function Shortened(prompt: string, compressible: bool, t: seq<Message>, e: Estimate): seq<Message> {
    var soft := SoftlyShortened(prompt, compressible, t, e);
    if e.tooLong then HardShortened(compressible, soft, e.digest) else soft
  }

  /** The terminal event of a status: a cancelled turn just stops. */
  function TerminalOf(status: Status): Option<Event> {
    match status
    case Success => Some(Done)
    case Failure => Some(Error)
    case Cancelled => None
  }

  // ---------------------------------------------------------------- what a turn keeps

  /** The stream and the steps agree and nothing has ended the turn. */
  ghost predicate TellingOk(stream: seq<Event>, text: string, steps: seq<Step>) {
    StreamOk(stream, text, steps) && Read(stream).terminal.None?
  }

  ghost predicate BetweenOk(stream: seq<Event>, text: string, steps: seq<Step>) {
    TellingOk(stream, text, steps) && Read(stream).open.None?
  }

  /** A turn's trace and run record, with the answers they are about. */
  datatype Books = Books(traced: bool, recorded: bool, traces: seq<TraceRecord>, turns: seq<TraceTurn>, tools: seq<string>,
                         text: string, answers: seq<Completion>, logged: nat, history: seq<RunRecord>, leftAtContext: bool)

  ghost predicate TraceKeptIn(b: Books) {
    TraceOk(b.traced, b.recorded, b.traces, b.turns, b.tools, b.text, b.answers, b.logged)
  }

  /** Nothing recorded yet and every answer logged. */
  ghost predicate QuietOk(b: Books) {
    TraceKeptIn(b) && b.traces == [] && b.history == [] && |b.turns| == b.logged == |b.answers| && !b.leftAtContext
  }

  /** The model answered and the answer is not in the trace yet. */
  ghost predicate PendingOk(b: Books, c: Completion) {
    && TraceKeptIn(b) && b.traces == [] && b.history == [] && !b.leftAtContext
    && |b.turns| == b.logged && |b.answers| == b.logged + 1 && c == b.answers[b.logged]
  }

  /** The run record is written, and with it the trace, if there is anything to trace. */
  ghost predicate RecordedOk(b: Books, status: Status, steps: seq<Step>, cancelled: bool) {
    && TraceKeptIn(b) && b.logged == |b.answers| && !b.leftAtContext
    && (status.Cancelled? <==> cancelled)
    && b.history == [RunRecord(status, b.text, steps)]
    && (b.traced && (b.turns != [] || !status.Cancelled?) ==> b.traces != [])
    && (b.recorded || |b.turns| == b.logged)
  }

  /** Ended: one record, and the terminal event its status asks for, last. */
  ghost predicate ClosedOk(b: Books, steps: seq<Step>, cancelled: bool, stream: seq<Event>) {
    && b.history != [] && RecordedOk(b, b.history[0].status, steps, cancelled)
    && StreamOk(stream, b.text, steps)
    && Read(stream).terminal == TerminalOf(b.history[0].status)
  }

  /** Wherever a turn was abandoned: at most one record, and the trace still to be written. */
  ghost predicate InterruptedOk(b: Books, steps: seq<Step>, cancelled: bool, stream: seq<Event>) {
    && StreamOk(stream, b.text, steps) && TraceKeptIn(b) && (b.recorded || |b.turns| == b.logged)
    && (b.logged < |b.answers| <==> b.leftAtContext)
    && |b.history| <= 1 && (b.history != [] ==> (b.history[0].status.Cancelled? <==> cancelled))
  }

  lemma ClosedIsInterrupted(b: Books, steps: seq<Step>, cancelled: bool, stream: seq<Event>)
    requires ClosedOk(b, steps, cancelled, stream)
    ensures InterruptedOk(b, steps, cancelled, stream)
  {
  }

  lemma QuietIsInterrupted(b: Books, steps: seq<Step>, cancelled: bool, stream: seq<Event>)
    requires QuietOk(b) && StreamOk(stream, b.text, steps)
    ensures InterruptedOk(b, steps, cancelled, stream)
  {
  }

  /** Nothing said yet, and exactly these calls have run and are in the trace. */
  ghost predicate RanOk(ids: seq<string>, text: string, steps: seq<Step>, tools: seq<string>) {
    text == "" && StepIds(steps) == ids && tools == ids
  }

  /** Between two rounds: every call the model asked for has run, nothing was said and nothing recorded. */
  ghost predicate RestedOk(b: Books, steps: seq<Step>, asked: seq<string>, finishes: seq<(string, string)>, summary: Option<string>) {
    QuietOk(b) && RanOk(asked, b.text, steps, b.tools) && finishes == [] && summary.None?
  }

  /** The model's answer `c` is noted and not acted on: the calls before it have run, its own have not. */
  ghost predicate NotedOk(b: Books, steps: seq<Step>, asked: seq<string>, finishes: seq<(string, string)>,
                          summary: Option<string>, c: Completion)
  {
    && QuietOk(b) && b.logged > 0 && c == b.answers[|b.answers| - 1]
    && RanOk(b.tools, b.text, steps, b.tools) && asked == b.tools + CallIds(c)
    && finishes == [] && summary.None?
  }

  /** All the calls of the answer `c` have run too. */
  ghost predicate ServedOk(b: Books, steps: seq<Step>, asked: seq<string>, finishes: seq<(string, string)>,
                           summary: Option<string>, c: Completion)
  {
    && QuietOk(b) && b.logged > 0 && c == b.answers[|b.answers| - 1]
    && RanOk(asked, b.text, steps, b.tools) && FinishKept(summary, finishes, CallIds(c))
  }

  /** The turn is over by `return`: closed, no tool left open, and telling how it ended. */
  ghost predicate OverOk(b: Books, steps: seq<Step>, cancelled: bool, stream: seq<Event>, asked: seq<string>,
                         finishes: seq<(string, string)>, rounds: nat)
  {
    && ClosedOk(b, steps, cancelled, stream) && Read(stream).open.None?
    && Ending(b.history[0], Read(stream), b.answers, asked, finishes, rounds)
  }

  /** What is left of a turn when an exception ended its body. */
  ghost predicate ThrownOk(exc: Raised, b: Books, steps: seq<Step>, cancelled: bool, stream: seq<Event>, left: bool) {
    if exc.Failed? then TellingOk(stream, b.text, steps) && QuietOk(b)
    else left && InterruptedOk(b, steps, cancelled, stream)
  }

  lemma QuietIsThrown(exc: Raised, b: Books, steps: seq<Step>, cancelled: bool, stream: seq<Event>, left: bool)
    requires QuietOk(b) && TellingOk(stream, b.text, steps) && (exc.Aborted? ==> left)
    ensures ThrownOk(exc, b, steps, cancelled, stream, left)
  {
  }

  /** A closed turn that said nothing and was stopped tells so. */
  lemma CancelledEnding(b: Books, steps: seq<Step>, cancelled: bool, stream: seq<Event>, asked: seq<string>,
                        finishes: seq<(string, string)>, rounds: nat)
    requires ClosedOk(b, steps, cancelled, stream) && Read(stream).open.None?
    requires b.history[0].status.Cancelled? && b.text == ""
    ensures OverOk(b, steps, cancelled, stream, asked, finishes, rounds)
  {
  }

  lemma FailureEnding(b: Books, steps: seq<Step>, cancelled: bool, stream: seq<Event>, asked: seq<string>,
                      finishes: seq<(string, string)>, rounds: nat)
    requires ClosedOk(b, steps, cancelled, stream) && Read(stream).open.None?
    requires b.history[0].status.Failure? && b.text == "" && b.answers != []
    requires var last := b.answers[|b.answers| - 1];
             last.NoChoice? || (last.calls != [] && finishes == [] && rounds == 66)
    ensures OverOk(b, steps, cancelled, stream, asked, finishes, rounds)
  {
  }

  lemma SuccessEnding(b: Books, steps: seq<Step>, cancelled: bool, stream: seq<Event>, asked: seq<string>,
                      finishes: seq<(string, string)>, rounds: nat)
    requires ClosedOk(b, steps, cancelled, stream) && b.history[0].status.Success? && b.answers != []
    requires Read(stream).open.None? && StepIds(steps) == asked
    requires var last := b.answers[|b.answers| - 1];
             && last.Answer?
             && if last.calls == [] then b.text == last.text && EndsWithAnswer(steps)
                else finishes != [] && finishes[|finishes| - 1].0 in Ids(last.calls) && b.text == finishes[|finishes| - 1].1
    ensures OverOk(b, steps, cancelled, stream, asked, finishes, rounds)
  {
  }
}
